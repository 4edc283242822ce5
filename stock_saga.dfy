/**
 * The stock service's saga step: StockEventHandler. A StockReservationRequested
 * event reserves its items one by one without stopping at a failure; if any
 * failed, the successful reservations are released again and one
 * StockReservationFailed event is published, otherwise one StockReserved event.
 * OrderConfirmed turns each line's reservation into a deduction.
 *
 * All calls of one handler run in the scope of one consumed message and share
 * its change tracker (`Store`). `saves[i]` is the save outcome of the i-th
 * call of a loop (None: committed; Some(message): SaveChangesAsync threw, the
 * call rolled back and replied with a 500). A list shorter than the loop
 * leaves the remaining calls committed. A call whose save failed still leaves
 * its change on the tracked entity: the next call sees it, and the next save
 * that goes through writes it.
 */
module StockSaga {
  import opened Wrappers
  import opened Int32s
  import opened OperationResults
  import opened StockDomain
  import opened StockService
  import Text
  import Guids

  datatype ReservationItem = ReservationItem(productId: Guids.Guid, quantity: Int32)

  datatype StockReservationRequestedEvent = StockReservationRequestedEvent(orderId: Guids.Guid, items: seq<ReservationItem>)

  datatype ConfirmedLine = ConfirmedLine(productId: Guids.Guid, quantity: Int32)

  datatype OrderConfirmedEvent = OrderConfirmedEvent(orderId: Guids.Guid, orderLines: seq<ConfirmedLine>)

  /** StockReservationResult; the product id is kept as the Guid's string form, as in the source. */
  datatype ReservationResult = ReservationResult(
    productId: string, quantity: Int32, isSuccess: bool, reservedQuantity: Int32, failureReason: Option<string>)

  datatype ReservedItem = ReservedItem(productId: string, quantity: Int32, reservedQuantity: Int32)

  datatype ResultItem = ResultItem(productId: string, quantity: Int32, isSuccess: bool, failureReason: Option<string>)

  /** The two payloads the handler publishes; occurredOn is the caller's clock. */
  datatype StockEvent =
    | StockReserved(orderId: Guids.Guid, reservedItems: seq<ReservedItem>, occurredOn: int)
    | StockReservationFailed(orderId: Guids.Guid, reason: string, resultItems: seq<ResultItem>, occurredOn: int)
  {
    function EventType(): string
    {
      if StockReserved? then "StockReserved" else "StockReservationFailed"
    }
  }

  /** The save outcome of the i-th call of a loop. */
  function SaveAt(saves: seq<Option<string>>, i: nat): Option<string>
  {
    if i < |saves| then saves[i] else None
  }

  /** Every call of the loop commits. */
  predicate Clean(saves: seq<Option<string>>)
  {
    forall i | 0 <= i < |saves| :: saves[i].None?
  }

  /** ReserveStockAsync succeeds for this item in store `s` when its save had outcome `saved`. */
  predicate Reserves(s: Store, item: ReservationItem, saved: Option<string>)
  {
    CanReserveIn(s, item.productId, item.quantity) && saved.None?
  }

  /** The message of ReserveStockAsync's failure: a missing row, too little stock, or the save's exception. */
  function ReserveFailure(s: Store, item: ReservationItem, saved: Option<string>): (m: string)
    requires !Reserves(s, item, saved)
    ensures s.Find(item.productId).None? ==> m == NotFoundForProduct
    ensures s.Find(item.productId).Some? && !CanReserveIn(s, item.productId, item.quantity) ==> m == InsufficientStock
    ensures CanReserveIn(s, item.productId, item.quantity) ==> m == ReserveError + saved.value
  {
    if s.Find(item.productId).None? then NotFoundForProduct
    else if !CanReserve(s.Find(item.productId).value, item.quantity) then InsufficientStock
    else ReserveError + saved.value
  }

  /** The result entry the first loop records for one item reserved in store `s`. */
  function ResultFor(s: Store, item: ReservationItem, saved: Option<string>): (r: ReservationResult)
  {
    if Reserves(s, item, saved) then
      ReservationResult(Guids.Format(item.productId), item.quantity, true, item.quantity, None)
    else
      ReservationResult(Guids.Format(item.productId), item.quantity, false, 0, Some(ReserveFailure(s, item, saved)))
  }

  /** The store after reserving every item in order, item i saving with outcome SaveAt(saves, i). */
  function ReserveAll(s: Store, items: seq<ReservationItem>, saves: seq<Option<string>>): Store
  {
    if |items| == 0 then s
    else
      var last := items[|items| - 1];
      ReserveIn(ReserveAll(s, items[..|items| - 1], saves), last.productId, last.quantity, SaveAt(saves, |items| - 1))
  }

  /** The result list of the first loop: item i is reserved in the store the first i items left. */
  function Results(s: Store, items: seq<ReservationItem>, saves: seq<Option<string>>): (rs: seq<ReservationResult>)
    ensures |rs| == |items|
  {
    if |items| == 0 then []
    else
      var init := items[..|items| - 1];
      Results(s, init, saves) + [ResultFor(ReserveAll(s, init, saves), items[|items| - 1], SaveAt(saves, |items| - 1))]
  }

  /**
   * The items whose reservation changed the tracked row but whose save
   * failed: no result counts their units as held, so nothing releases them.
   */
  function StrandedItems(s: Store, items: seq<ReservationItem>, saves: seq<Option<string>>): seq<ReservationItem>
  {
    if |items| == 0 then []
    else
      var init, last := items[..|items| - 1], items[|items| - 1];
      StrandedItems(s, init, saves)
        + (if CanReserveIn(ReserveAll(s, init, saves), last.productId, last.quantity) && SaveAt(saves, |items| - 1).Some?
           then [last] else [])
  }

  /** The units a list of items asks for on product `p`. */
  function Units(items: seq<ReservationItem>, p: Guids.Guid): int
  {
    if |items| == 0 then 0
    else Units(items[..|items| - 1], p) + (if items[|items| - 1].productId == p then items[|items| - 1].quantity else 0)
  }

  predicate AllSucceeded(rs: seq<ReservationResult>)
  {
    forall i | 0 <= i < |rs| :: rs[i].isSuccess
  }

  /** reservationResults.Where(r => r.IsSuccess). */
  function SuccessfulOnly(rs: seq<ReservationResult>): (s: seq<ReservationResult>)
    ensures |s| <= |rs|
    ensures forall i | 0 <= i < |s| :: s[i].isSuccess
  {
    if |rs| == 0 then []
    else
      var last := rs[|rs| - 1];
      SuccessfulOnly(rs[..|rs| - 1]) + (if last.isSuccess then [last] else [])
  }

  /** The StockReserved payload's item list. */
  function ReservedItems(rs: seq<ReservationResult>): (s: seq<ReservedItem>)
    ensures |s| == |SuccessfulOnly(rs)|
  {
    var ok := SuccessfulOnly(rs);
    seq(|ok|, i requires 0 <= i < |ok| => ReservedItem(ok[i].productId, ok[i].quantity, ok[i].reservedQuantity))
  }

  /** The StockReservationFailed payload's item list: every result. */
  function ResultItems(rs: seq<ReservationResult>): (s: seq<ResultItem>)
    ensures |s| == |rs|
  {
    seq(|rs|, i requires 0 <= i < |rs| => ResultItem(rs[i].productId, rs[i].quantity, rs[i].isSuccess, rs[i].failureReason))
  }

  /** Interpolating a null string yields "". */
  function Interpolated(s: Option<string>): string
  {
    if s.Some? then s.value else ""
  }

  /** "productId: failureReason" for each failed result, in order. */
  function FailedDescriptions(rs: seq<ReservationResult>): (d: seq<string>)
    ensures |d| + |SuccessfulOnly(rs)| == |rs|
  {
    if |rs| == 0 then []
    else
      var last := rs[|rs| - 1];
      FailedDescriptions(rs[..|rs| - 1])
        + (if last.isSuccess then [] else [last.productId + ": " + Interpolated(last.failureReason)])
  }

  function FailureReason(rs: seq<ReservationResult>): string
  {
    Text.Join("; ", FailedDescriptions(rs))
  }

  /** One iteration of ReleaseSuccessfulReservationsAsync; a product id that does not parse is logged and skipped. */
  function ReleaseStep(s: Store, r: ReservationResult, saved: Option<string>): Store
  {
    if !r.isSuccess then s
    else match Guids.Parse(r.productId)
      case None => s
      case Some(p) => ReleaseIn(s, p, r.quantity, saved)
  }

  /** The store after releasing each result in order, result i saving with outcome SaveAt(saves, i). */
  function ReleaseResults(s: Store, rs: seq<ReservationResult>, saves: seq<Option<string>>): Store
  {
    if |rs| == 0 then s else ReleaseStep(ReleaseResults(s, rs[..|rs| - 1], saves), rs[|rs| - 1], SaveAt(saves, |rs| - 1))
  }

  /** The store after HandleOrderConfirmedAsync confirmed each line in order, line i saving with outcome SaveAt(saves, i). */
  function ConfirmAll(s: Store, lines: seq<ConfirmedLine>, saves: seq<Option<string>>): Store
  {
    if |lines| == 0 then s
    else
      var last := lines[|lines| - 1];
      ConfirmIn(ConfirmAll(s, lines[..|lines| - 1], saves), last.productId, last.quantity, SaveAt(saves, |lines| - 1))
  }

  /** The units the successful results of `rs` hold on product `p`. */
  function Reserved(rs: seq<ReservationResult>, p: Guids.Guid): int
  {
    if |rs| == 0 then 0
    else
      var last := rs[|rs| - 1];
      Reserved(rs[..|rs| - 1], p) + (if last.isSuccess && Guids.Parse(last.productId) == Some(p) then last.quantity else 0)
  }

  /** Every successful result names (in parseable form) a product of `t` and holds a non-negative amount. */
  predicate Releasable(t: StockTable, rs: seq<ReservationResult>)
  {
    forall i | 0 <= i < |rs| && rs[i].isSuccess ::
      Guids.Parse(rs[i].productId).Some? && Guids.Parse(rs[i].productId).value in t && rs[i].quantity >= 0
  }

  predicate NonNegative(items: seq<ReservationItem>)
  {
    forall i | 0 <= i < |items| :: items[i].quantity >= 0
  }

  lemma SnocPrefix<X>(s: seq<X>, x: X)
    ensures (s + [x])[..|s|] == s && (s + [x])[|s|] == x
  {
  }

  /** The result list has one entry per item, in item order, naming that item and its quantity. */
  lemma {:induction false} ResultsMatchItems(s: Store, items: seq<ReservationItem>, saves: seq<Option<string>>)
    ensures forall i | 0 <= i < |items| ::
      && Results(s, items, saves)[i].productId == Guids.Format(items[i].productId)
      && Results(s, items, saves)[i].quantity == items[i].quantity
      && (Results(s, items, saves)[i].isSuccess ==> Results(s, items, saves)[i].reservedQuantity == items[i].quantity)
  {
    if |items| > 0 {
      var init := items[..|items| - 1];
      ResultsMatchItems(s, init, saves);
      assert forall i | 0 <= i < |init| :: items[i] == init[i];
    }
  }

  lemma {:induction false} SuccessfulOnlyAll(rs: seq<ReservationResult>)
    requires AllSucceeded(rs)
    ensures SuccessfulOnly(rs) == rs
  {
    if |rs| > 0 {
      SuccessfulOnlyAll(rs[..|rs| - 1]);
      assert rs[..|rs| - 1] + [rs[|rs| - 1]] == rs;
    }
  }

  /** A successful result anywhere in the list survives the filter. */
  lemma {:induction false} SuccessSurvivesFilter(rs: seq<ReservationResult>, i: nat)
    requires i < |rs| && rs[i].isSuccess
    ensures |SuccessfulOnly(rs)| > 0
  {
    if i < |rs| - 1 {
      SuccessSurvivesFilter(rs[..|rs| - 1], i);
    }
  }

  /** When every item is reserved, the StockReserved payload lists every item, in order, with ReservedQuantity = Quantity. */
  lemma StockReservedListsEveryItem(s: Store, items: seq<ReservationItem>, saves: seq<Option<string>>)
    requires AllSucceeded(Results(s, items, saves))
    ensures |ReservedItems(Results(s, items, saves))| == |items|
    ensures forall i | 0 <= i < |items| ::
      ReservedItems(Results(s, items, saves))[i] == ReservedItem(Guids.Format(items[i].productId), items[i].quantity, items[i].quantity)
  {
    SuccessfulOnlyAll(Results(s, items, saves));
    ResultsMatchItems(s, items, saves);
  }

  /** When every release commits, releasing only the successful results releases what releasing them all would. */
  lemma {:induction false} FilterKeepsReleaseResults(s: Store, rs: seq<ReservationResult>)
    ensures ReleaseResults(s, SuccessfulOnly(rs), []) == ReleaseResults(s, rs, [])
  {
    if |rs| > 0 {
      var init, last := rs[..|rs| - 1], rs[|rs| - 1];
      FilterKeepsReleaseResults(s, init);
      if last.isSuccess {
        SnocPrefix(SuccessfulOnly(init), last);
      } else {
        assert SuccessfulOnly(rs) == SuccessfulOnly(init);
      }
    }
  }

  /** Filtering out the failed results keeps the units held on every product. */
  lemma {:induction false} FilterKeepsReserved(rs: seq<ReservationResult>, p: Guids.Guid)
    ensures Reserved(SuccessfulOnly(rs), p) == Reserved(rs, p)
  {
    if |rs| > 0 {
      var init, last := rs[..|rs| - 1], rs[|rs| - 1];
      FilterKeepsReserved(init, p);
      if last.isSuccess {
        ReservedSnoc(SuccessfulOnly(init), last, p);
      } else {
        assert SuccessfulOnly(rs) == SuccessfulOnly(init);
      }
    }
  }

  /** A prefix of releasable results is releasable. */
  lemma ReleasablePrefix(t: StockTable, rs: seq<ReservationResult>, n: nat)
    requires Releasable(t, rs) && n <= |rs|
    ensures Releasable(t, rs[..n])
  {
    forall i | 0 <= i < n && rs[..n][i].isSuccess
      ensures Guids.Parse(rs[..n][i].productId).Some? && Guids.Parse(rs[..n][i].productId).value in t && rs[..n][i].quantity >= 0
    {
      assert rs[..n][i] == rs[i];
    }
  }

  /** Filtering out the failed results keeps releasability. */
  lemma {:induction false} FilterKeepsReleasable(t: StockTable, rs: seq<ReservationResult>)
    requires Releasable(t, rs)
    ensures Releasable(t, SuccessfulOnly(rs))
  {
    if |rs| > 0 {
      var init, last := rs[..|rs| - 1], rs[|rs| - 1];
      ReleasablePrefix(t, rs, |rs| - 1);
      FilterKeepsReleasable(t, init);
      if last.isSuccess {
        ReleasableSnoc(t, SuccessfulOnly(init), last);
      }
    }
  }

  /**
   * Filtering out the failed results changes neither the units held per
   * product nor releasability, and when every release commits it releases
   * exactly what releasing every result would.
   */
  lemma FilterKeepsRelease(s: Store, rs: seq<ReservationResult>)
    ensures ReleaseResults(s, SuccessfulOnly(rs), []) == ReleaseResults(s, rs, [])
    ensures forall p :: Reserved(SuccessfulOnly(rs), p) == Reserved(rs, p)
    ensures Releasable(s.tracked, rs) ==> Releasable(s.tracked, SuccessfulOnly(rs))
  {
    FilterKeepsReleaseResults(s, rs);
    forall p
      ensures Reserved(SuccessfulOnly(rs), p) == Reserved(rs, p)
    {
      FilterKeepsReserved(rs, p);
    }
    if Releasable(s.tracked, rs) {
      FilterKeepsReleasable(s.tracked, rs);
    }
  }

  /** A list of committed save outcomes releases exactly what the empty list (every call committed) does. */
  lemma {:induction false} CleanSavesCommit(s: Store, rs: seq<ReservationResult>, saves: seq<Option<string>>)
    requires Clean(saves)
    ensures ReleaseResults(s, rs, saves) == ReleaseResults(s, rs, [])
  {
    if |rs| > 0 {
      CleanSavesCommit(s, rs[..|rs| - 1], saves);
    }
  }

  /** When every reservation save commits, no item is stranded. */
  lemma {:induction false} CleanSavesStrandNothing(s: Store, items: seq<ReservationItem>, saves: seq<Option<string>>)
    requires Clean(saves)
    ensures StrandedItems(s, items, saves) == []
  {
    if |items| > 0 {
      CleanSavesStrandNothing(s, items[..|items| - 1], saves);
    }
  }

  /** Committed reservations keep the database and the tracker in step. */
  lemma {:induction false} CleanReservesKeepInSync(s: Store, items: seq<ReservationItem>, saves: seq<Option<string>>)
    requires InSync(s) && Clean(saves)
    ensures InSync(ReserveAll(s, items, saves))
  {
    if |items| > 0 {
      var last := items[|items| - 1];
      CleanReservesKeepInSync(s, items[..|items| - 1], saves);
      CommitWritesTracked(ReserveAll(s, items[..|items| - 1], saves), last.productId, last.quantity, None);
    }
  }

  /** Committed releases keep the database and the tracker in step. */
  lemma {:induction false} CleanReleasesKeepInSync(s: Store, rs: seq<ReservationResult>, saves: seq<Option<string>>)
    requires InSync(s) && Clean(saves)
    ensures InSync(ReleaseResults(s, rs, saves))
  {
    if |rs| > 0 {
      var last := rs[|rs| - 1];
      CleanReleasesKeepInSync(s, rs[..|rs| - 1], saves);
      if last.isSuccess && Guids.Parse(last.productId).Some? {
        CommitWritesTracked(ReleaseResults(s, rs[..|rs| - 1], saves), Guids.Parse(last.productId).value, last.quantity, None);
      }
    }
  }

  /** Extending the prefix of items by one extends the store and the results by that item's reservation. */
  lemma ReserveOneMore(s: Store, items: seq<ReservationItem>, i: nat, saves: seq<Option<string>>)
    requires i < |items|
    ensures ReserveAll(s, items[..i + 1], saves) == ReserveIn(ReserveAll(s, items[..i], saves), items[i].productId, items[i].quantity, SaveAt(saves, i))
    ensures Results(s, items[..i + 1], saves) == Results(s, items[..i], saves) + [ResultFor(ReserveAll(s, items[..i], saves), items[i], SaveAt(saves, i))]
  {
    assert items[..i + 1][..i] == items[..i];
  }

  lemma AllSucceededSnoc(rs: seq<ReservationResult>, r: ReservationResult)
    ensures AllSucceeded(rs + [r]) <==> AllSucceeded(rs) && r.isSuccess
  {
    if AllSucceeded(rs) && r.isSuccess {
      forall i | 0 <= i < |rs + [r]| ensures (rs + [r])[i].isSuccess {
        if i < |rs| { assert (rs + [r])[i] == rs[i]; }
      }
    }
    if AllSucceeded(rs + [r]) {
      assert (rs + [r])[|rs|] == r;
      forall i | 0 <= i < |rs| ensures rs[i].isSuccess {
        assert (rs + [r])[i] == rs[i];
      }
    }
  }

  /** One more result adds its amount to the product it names, when it succeeded. */
  lemma ReservedSnoc(rs: seq<ReservationResult>, r: ReservationResult, p: Guids.Guid)
    ensures Reserved(rs + [r], p) == Reserved(rs, p) + (if r.isSuccess && Guids.Parse(r.productId) == Some(p) then r.quantity else 0)
  {
    SnocPrefix(rs, r);
  }

  lemma UnitsSnoc(items: seq<ReservationItem>, extra: seq<ReservationItem>, p: Guids.Guid)
    requires |extra| <= 1
    ensures Units(items + extra, p) == Units(items, p) + Units(extra, p)
  {
    if |extra| == 1 {
      SnocPrefix(items, extra[0]);
    } else {
      assert items + extra == items;
    }
  }

  lemma ReleasableSnoc(t: StockTable, rs: seq<ReservationResult>, r: ReservationResult)
    requires Releasable(t, rs)
    requires r.isSuccess ==> Guids.Parse(r.productId).Some? && Guids.Parse(r.productId).value in t && r.quantity >= 0
    ensures Releasable(t, rs + [r])
  {
    forall i | 0 <= i < |rs + [r]| && (rs + [r])[i].isSuccess
      ensures Guids.Parse((rs + [r])[i].productId).Some? && Guids.Parse((rs + [r])[i].productId).value in t
        && (rs + [r])[i].quantity >= 0
    {
      if i < |rs| { assert (rs + [r])[i] == rs[i]; }
    }
  }

  /**
   * `u` is `t` with each reserved amount raised by what the successful
   * results of `rs` hold on its product and what the stranded items ask of
   * it, every row consistent.
   */
  ghost predicate ReservedFrom(t: StockTable, u: StockTable, rs: seq<ReservationResult>, stranded: seq<ReservationItem>)
  {
    && u.Keys == t.Keys
    && forall p | p in t ::
      && Consistent(u[p])
      && u[p].reservedQuantity == t[p].reservedQuantity + Reserved(rs, p) + Units(stranded, p)
      && u[p] == t[p].(reservedQuantity := u[p].reservedQuantity)
  }

  /**
   * Reserving one more item keeps the accounting, whatever its save outcome:
   * the tracked row gains the item's quantity exactly when the reservation
   * was admitted, and that quantity is held by its result or stranded.
   */
  lemma ReserveStepAccount(t: StockTable, u: Store, rs: seq<ReservationResult>, stranded: seq<ReservationItem>,
                           item: ReservationItem, saved: Option<string>)
    requires NoneAdded(u) && ReservedFrom(t, u.tracked, rs, stranded) && item.quantity >= 0
    ensures NoneAdded(ReserveIn(u, item.productId, item.quantity, saved))
    ensures ReservedFrom(t, ReserveIn(u, item.productId, item.quantity, saved).tracked, rs + [ResultFor(u, item, saved)],
                         stranded + (if CanReserveIn(u, item.productId, item.quantity) && saved.Some? then [item] else []))
  {
    var r := ResultFor(u, item, saved);
    var extra := if CanReserveIn(u, item.productId, item.quantity) && saved.Some? then [item] else [];
    var v := ReserveIn(u, item.productId, item.quantity, saved);
    Guids.ParseFormat(item.productId);
    if CanReserveIn(u, item.productId, item.quantity) {
      ReserveKeepsConsistent(u.tracked[item.productId], item.quantity);
    }
    forall p | p in t
      ensures Consistent(v.tracked[p])
        && v.tracked[p].reservedQuantity == t[p].reservedQuantity + Reserved(rs + [r], p) + Units(stranded + extra, p)
        && v.tracked[p] == t[p].(reservedQuantity := v.tracked[p].reservedQuantity)
    {
      ReservedSnoc(rs, r, p);
      UnitsSnoc(stranded, extra, p);
    }
  }

  /**
   * Reservation accounting, whichever saves failed: reserving the items
   * leaves every tracked row as it was except that its reserved amount grew
   * by what the successful results hold on it and what the stranded items ask
   * of it; every row stays consistent and no row is added.
   */
  lemma {:induction false} ReserveAccount(s: Store, items: seq<ReservationItem>, saves: seq<Option<string>>)
    requires NoneAdded(s) && AllConsistent(s.tracked) && NonNegative(items)
    ensures NoneAdded(ReserveAll(s, items, saves))
    ensures ReserveAll(s, items, saves).tracked.Keys == s.tracked.Keys
    ensures Releasable(s.tracked, Results(s, items, saves))
    ensures forall p | p in s.tracked ::
      var row := ReserveAll(s, items, saves).tracked[p];
      && Consistent(row)
      && row.reservedQuantity == s.tracked[p].reservedQuantity + Reserved(Results(s, items, saves), p)
                                 + Units(StrandedItems(s, items, saves), p)
      && row == s.tracked[p].(reservedQuantity := row.reservedQuantity)
  {
    if |items| > 0 {
      var init, last := items[..|items| - 1], items[|items| - 1];
      assert NonNegative(init) by { assert forall i | 0 <= i < |init| :: init[i] == items[i]; }
      ReserveAccount(s, init, saves);
      var u := ReserveAll(s, init, saves);
      var rs0 := Results(s, init, saves);
      var saved := SaveAt(saves, |items| - 1);
      assert ReservedFrom(s.tracked, u.tracked, rs0, StrandedItems(s, init, saves));
      assert Results(s, items, saves) == rs0 + [ResultFor(u, last, saved)];
      assert ReserveAll(s, items, saves) == ReserveIn(u, last.productId, last.quantity, saved);
      Guids.ParseFormat(last.productId);
      ReleasableSnoc(s.tracked, rs0, ResultFor(u, last, saved));
      ReserveStepAccount(s.tracked, u, rs0, StrandedItems(s, init, saves), last, saved);
    } else {
      assert ReservedFrom(s.tracked, s.tracked, [], []);
    }
  }

  /** `w` is `t` with each reserved amount lowered by what the successful results of `rs` hold on its product. */
  ghost predicate ReleasedFrom(t: StockTable, w: StockTable, rs: seq<ReservationResult>)
  {
    && w.Keys == t.Keys
    && forall p | p in t ::
      && w[p].reservedQuantity + Reserved(rs, p) == t[p].reservedQuantity
      && w[p] == t[p].(reservedQuantity := w[p].reservedQuantity)
  }

  /** One product's tracked row after releasing one more result. */
  lemma ReleaseStepRow(t: StockTable, w: Store, rs: seq<ReservationResult>, r: ReservationResult, saved: Option<string>,
                       p: Guids.Guid)
    requires NoneAdded(w) && ReleasedFrom(t, w.tracked, rs) && p in t
    requires r.isSuccess ==> Guids.Parse(r.productId).Some? && Guids.Parse(r.productId).value in t && r.quantity >= 0
    requires t[p].reservedQuantity >= Reserved(rs + [r], p)
    ensures var row := ReleaseStep(w, r, saved).tracked[p];
      row.reservedQuantity + Reserved(rs + [r], p) == t[p].reservedQuantity && row == t[p].(reservedQuantity := row.reservedQuantity)
  {
    ReservedSnoc(rs, r, p);
    if r.isSuccess && Guids.Parse(r.productId).value != p {
      OnlyThatRow(w, Guids.Parse(r.productId).value, r.quantity, saved, p);
    }
  }

  /** Releasing one more successful result takes exactly its amount off the tracked row it names, whatever its save outcome. */
  lemma ReleaseStepAccount(t: StockTable, w: Store, rs: seq<ReservationResult>, r: ReservationResult, saved: Option<string>)
    requires NoneAdded(w) && ReleasedFrom(t, w.tracked, rs)
    requires r.isSuccess ==> Guids.Parse(r.productId).Some? && Guids.Parse(r.productId).value in t && r.quantity >= 0
    requires forall p | p in t :: t[p].reservedQuantity >= Reserved(rs + [r], p)
    ensures NoneAdded(ReleaseStep(w, r, saved))
    ensures ReleasedFrom(t, ReleaseStep(w, r, saved).tracked, rs + [r])
    ensures r.isSuccess ==> CoversIn(w, Guids.Parse(r.productId).value, r.quantity)
  {
    var v := ReleaseStep(w, r, saved);
    forall p | p in t
      ensures v.tracked[p].reservedQuantity + Reserved(rs + [r], p) == t[p].reservedQuantity
        && v.tracked[p] == t[p].(reservedQuantity := v.tracked[p].reservedQuantity)
    {
      ReleaseStepRow(t, w, rs, r, saved, p);
    }
    if r.isSuccess {
      var q := Guids.Parse(r.productId).value;
      ReservedSnoc(rs, r, q);
      assert w.tracked[q].reservedQuantity + Reserved(rs, q) == t[q].reservedQuantity;
    }
  }

  /**
   * Release accounting, whichever saves failed: releasing the successful
   * results of `rs` from a store whose tracked rows hold at least their
   * amounts lowers each tracked reserved amount by exactly those amounts and
   * changes nothing else.
   */
  lemma {:induction false} ReleaseAccount(s: Store, rs: seq<ReservationResult>, saves: seq<Option<string>>)
    requires NoneAdded(s) && Releasable(s.tracked, rs)
    requires forall p | p in s.tracked :: s.tracked[p].reservedQuantity >= Reserved(rs, p)
    ensures NoneAdded(ReleaseResults(s, rs, saves))
    ensures ReleaseResults(s, rs, saves).tracked.Keys == s.tracked.Keys
    ensures forall p | p in s.tracked ::
      var row := ReleaseResults(s, rs, saves).tracked[p];
      && row.reservedQuantity + Reserved(rs, p) == s.tracked[p].reservedQuantity
      && row == s.tracked[p].(reservedQuantity := row.reservedQuantity)
  {
    if |rs| > 0 {
      var init, last := rs[..|rs| - 1], rs[|rs| - 1];
      assert rs == init + [last];
      assert Releasable(s.tracked, init) by {
        forall i | 0 <= i < |init| && init[i].isSuccess
          ensures Guids.Parse(init[i].productId).Some? && Guids.Parse(init[i].productId).value in s.tracked && init[i].quantity >= 0
        {
          assert init[i] == rs[i];
        }
      }
      forall p | p in s.tracked
        ensures s.tracked[p].reservedQuantity >= Reserved(init, p)
      {
        ReservedSnoc(init, last, p);
      }
      ReleaseAccount(s, init, saves);
      var w := ReleaseResults(s, init, saves);
      assert ReleasedFrom(s.tracked, w.tracked, init);
      ReleaseStepAccount(s.tracked, w, init, last, SaveAt(saves, |rs| - 1));
    } else {
      assert ReleasedFrom(s.tracked, s.tracked, []);
    }
  }

  /** When every release commits and the last result succeeded, its save writes every tracked change of the scope. */
  lemma CommittedReleaseWritesAll(s: Store, rs: seq<ReservationResult>, saves: seq<Option<string>>)
    requires NoneAdded(s) && Releasable(s.tracked, rs) && Clean(saves)
    requires forall p | p in s.tracked :: s.tracked[p].reservedQuantity >= Reserved(rs, p)
    requires |rs| > 0 && rs[|rs| - 1].isSuccess
    ensures InSync(ReleaseResults(s, rs, saves))
  {
    var init, last := rs[..|rs| - 1], rs[|rs| - 1];
    assert rs == init + [last];
    assert Releasable(s.tracked, init) by {
      forall i | 0 <= i < |init| && init[i].isSuccess
        ensures Guids.Parse(init[i].productId).Some? && Guids.Parse(init[i].productId).value in s.tracked && init[i].quantity >= 0
      {
        assert init[i] == rs[i];
      }
    }
    forall p | p in s.tracked
      ensures s.tracked[p].reservedQuantity >= Reserved(init, p)
    {
      ReservedSnoc(init, last, p);
    }
    ReleaseAccount(s, init, saves);
    var w := ReleaseResults(s, init, saves);
    ReleaseStepAccount(s.tracked, w, init, last, SaveAt(saves, |rs| - 1));
  }

  /** Stranded items are among the requested ones, so they ask for no negative amount. */
  lemma {:induction false} StrandedUnitsNonNegative(s: Store, items: seq<ReservationItem>, saves: seq<Option<string>>, p: Guids.Guid)
    requires NonNegative(items)
    ensures Units(StrandedItems(s, items, saves), p) >= 0
  {
    if |items| > 0 {
      var init, last := items[..|items| - 1], items[|items| - 1];
      assert NonNegative(init) by { assert forall i | 0 <= i < |init| :: init[i] == items[i]; }
      StrandedUnitsNonNegative(s, init, saves, p);
      var extra := if CanReserveIn(ReserveAll(s, init, saves), last.productId, last.quantity) && SaveAt(saves, |items| - 1).Some?
                   then [last] else [];
      UnitsSnoc(StrandedItems(s, init, saves), extra, p);
      if |extra| == 1 {
        assert Units(extra, p) == Units(extra[..0], p) + (if last.productId == p then last.quantity else 0);
      }
    }
  }

  /** The tracked side of compensation: only the stranded units stay reserved. */
  lemma CompensationAccount(s: Store, items: seq<ReservationItem>, reserveSaves: seq<Option<string>>,
                            releaseSaves: seq<Option<string>>)
    requires NoneAdded(s) && AllConsistent(s.tracked) && NonNegative(items)
    ensures var v := ReserveAll(s, items, reserveSaves);
      var ok := SuccessfulOnly(Results(s, items, reserveSaves));
      && NoneAdded(v) && Releasable(v.tracked, ok)
      && forall p | p in v.tracked :: v.tracked[p].reservedQuantity >= Reserved(ok, p)
    ensures var u := ReleaseResults(ReserveAll(s, items, reserveSaves), SuccessfulOnly(Results(s, items, reserveSaves)), releaseSaves);
      && u.tracked.Keys == s.tracked.Keys
      && forall p | p in s.tracked ::
           && u.tracked[p].reservedQuantity == s.tracked[p].reservedQuantity + Units(StrandedItems(s, items, reserveSaves), p)
           && u.tracked[p] == s.tracked[p].(reservedQuantity := u.tracked[p].reservedQuantity)
  {
    var rs := Results(s, items, reserveSaves);
    var ok := SuccessfulOnly(rs);
    var stranded := StrandedItems(s, items, reserveSaves);
    var v := ReserveAll(s, items, reserveSaves);
    ReserveAccount(s, items, reserveSaves);
    assert v.tracked.Keys == s.tracked.Keys;
    assert Releasable(v.tracked, rs) by {
      assert Releasable(s.tracked, rs);
    }
    FilterKeepsRelease(v, rs);
    forall p | p in v.tracked
      ensures v.tracked[p].reservedQuantity >= Reserved(ok, p)
    {
      StrandedUnitsNonNegative(s, items, reserveSaves, p);
      assert Consistent(s.tracked[p]);
    }
    ReleaseAccount(v, ok, releaseSaves);
    var u := ReleaseResults(v, ok, releaseSaves);
    forall p | p in s.tracked
      ensures u.tracked[p].reservedQuantity == s.tracked[p].reservedQuantity + Units(stranded, p)
      ensures u.tracked[p] == s.tracked[p].(reservedQuantity := u.tracked[p].reservedQuantity)
    {
      assert u.tracked[p].reservedQuantity + Reserved(ok, p) == v.tracked[p].reservedQuantity;
      assert v.tracked[p] == s.tracked[p].(reservedQuantity := v.tracked[p].reservedQuantity);
    }
  }

  /**
   * Compensation, as the source does it. On consistent rows and with
   * non-negative quantities, releasing the successful reservations of a
   * request gives back every tracked row except for the units of the
   * stranded items (admitted, but their save failed), whichever release saves
   * failed and even when a product repeats. When every release commits and
   * some item succeeded, the last release writes the tracked rows, stranded
   * units included, to the database. When every save commits, the store is
   * exactly as it was.
   */
  lemma ReleaseRestoresTable(s: Store, items: seq<ReservationItem>, reserveSaves: seq<Option<string>>,
                             releaseSaves: seq<Option<string>>)
    requires NoneAdded(s) && AllConsistent(s.tracked) && NonNegative(items)
    ensures var rs := Results(s, items, reserveSaves);
      var u := ReleaseResults(ReserveAll(s, items, reserveSaves), SuccessfulOnly(rs), releaseSaves);
      && u.tracked.Keys == s.tracked.Keys
      && (forall p | p in s.tracked ::
            && u.tracked[p].reservedQuantity == s.tracked[p].reservedQuantity + Units(StrandedItems(s, items, reserveSaves), p)
            && u.tracked[p] == s.tracked[p].(reservedQuantity := u.tracked[p].reservedQuantity))
      && (Clean(releaseSaves) && |SuccessfulOnly(rs)| > 0 ==> InSync(u))
      && (InSync(s) && Clean(reserveSaves) && Clean(releaseSaves) ==> u == s)
  {
    var v := ReserveAll(s, items, reserveSaves);
    var ok := SuccessfulOnly(Results(s, items, reserveSaves));
    CompensationAccount(s, items, reserveSaves, releaseSaves);
    if Clean(releaseSaves) && |ok| > 0 {
      CommittedReleaseWritesAll(v, ok, releaseSaves);
    }
    if InSync(s) && Clean(reserveSaves) && Clean(releaseSaves) {
      CleanSavesStrandNothing(s, items, reserveSaves);
      CleanReservesKeepInSync(s, items, reserveSaves);
      CleanReleasesKeepInSync(v, ok, releaseSaves);
      var u := ReleaseResults(v, ok, releaseSaves);
      assert u.tracked == s.tracked by {
        forall p | p in s.tracked
          ensures u.tracked[p] == s.tracked[p]
        {
          assert Units([], p) == 0;
        }
      }
    }
  }

  /** The reservation loop of the leak example, step by step. */
  lemma LeakRun(a: Guids.Guid, b: Guids.Guid, x: Guids.Guid, ida: Guids.Guid, idb: Guids.Guid, m: string)
    requires a != b && x != a && x != b
    ensures var t := map[a := StockRow(ida, a, 10, 0), b := StockRow(idb, b, 10, 0)];
      var items := [ReservationItem(a, 2), ReservationItem(b, 3), ReservationItem(x, 1)];
      var saves := [None, Some(m), None];
      var rs := Results(Store(t, t), items, saves);
      && rs[0].isSuccess && rs[1].failureReason == Some(ReserveError + m) && rs[2].failureReason == Some(NotFoundForProduct)
      && StrandedItems(Store(t, t), items, saves) == [ReservationItem(b, 3)]
  {
    var t := map[a := StockRow(ida, a, 10, 0), b := StockRow(idb, b, 10, 0)];
    var items := [ReservationItem(a, 2), ReservationItem(b, 3), ReservationItem(x, 1)];
    var saves: seq<Option<string>> := [None, Some(m), None];
    var s := Store(t, t);
    var t1 := t[a := StockRow(ida, a, 10, 2)];
    var s1 := Store(t1, t1);
    var s2 := Store(t1, t1[b := StockRow(idb, b, 10, 3)]);
    assert items[..2][..1] == items[..1] && items[..1][..0] == [];
    assert ReserveAll(s, items[..1], saves) == s1;
    assert ReserveAll(s, items[..2], saves) == s2;
    assert !CanReserveIn(s2, x, 1);
    assert Results(s, items[..1], saves) == [ResultFor(s, items[0], None)];
    assert Results(s, items[..2], saves) == [ResultFor(s, items[0], None), ResultFor(s1, items[1], Some(m))];
    assert StrandedItems(s, items[..1], saves) == [];
    assert StrandedItems(s, items[..2], saves) == [items[1]];
  }

  /**
   * When every release commits and some item was reserved, the database
   * after compensation holds the scope's starting rows with the stranded
   * units still reserved.
   */
  lemma StrandedUnitsWritten(s: Store, items: seq<ReservationItem>, saves: seq<Option<string>>)
    requires NoneAdded(s) && AllConsistent(s.tracked) && NonNegative(items)
    requires |SuccessfulOnly(Results(s, items, saves))| > 0
    ensures var u := ReleaseResults(ReserveAll(s, items, saves), SuccessfulOnly(Results(s, items, saves)), []);
      && u.stored.Keys == s.tracked.Keys
      && forall p | p in s.tracked ::
           && u.stored[p].reservedQuantity == s.tracked[p].reservedQuantity + Units(StrandedItems(s, items, saves), p)
           && u.stored[p] == s.tracked[p].(reservedQuantity := u.stored[p].reservedQuantity)
  {
    ReleaseRestoresTable(s, items, saves, []);
  }

  /**
   * The leak, on a concrete request. Products a and b hold 10 units each, none
   * reserved; x has no row. The request asks for 2 of a, 3 of b and 1 of x,
   * and only b's save fails. The failure of x makes the handler release a;
   * that release's save also writes b's tracked reservation, so 3 units of b
   * stay reserved in the database for an order that was refused.
   */
  lemma FailedSaveLeaksReservation(a: Guids.Guid, b: Guids.Guid, x: Guids.Guid, ida: Guids.Guid, idb: Guids.Guid, m: string)
    requires a != b && x != a && x != b
    ensures var t := map[a := StockRow(ida, a, 10, 0), b := StockRow(idb, b, 10, 0)];
      var items := [ReservationItem(a, 2), ReservationItem(b, 3), ReservationItem(x, 1)];
      var saves := [None, Some(m), None];
      var rs := Results(Store(t, t), items, saves);
      var u := ReleaseResults(ReserveAll(Store(t, t), items, saves), SuccessfulOnly(rs), []);
      && rs[0].isSuccess && rs[1].failureReason == Some(ReserveError + m) && rs[2].failureReason == Some(NotFoundForProduct)
      && u.stored == t[b := StockRow(idb, b, 10, 3)]
  {
    var t := map[a := StockRow(ida, a, 10, 0), b := StockRow(idb, b, 10, 0)];
    var items := [ReservationItem(a, 2), ReservationItem(b, 3), ReservationItem(x, 1)];
    var saves: seq<Option<string>> := [None, Some(m), None];
    var s := Store(t, t);
    var rs := Results(s, items, saves);
    LeakRun(a, b, x, ida, idb, m);
    SuccessSurvivesFilter(rs, 0);
    assert NonNegative(items);
    StrandedUnitsWritten(s, items, saves);
    var stranded := [ReservationItem(b, 3)];
    assert Units(stranded, a) == 0 && Units(stranded, b) == 3;
    var u := ReleaseResults(ReserveAll(s, items, saves), SuccessfulOnly(rs), []);
    assert u.stored[a] == t[a] && u.stored[b] == StockRow(idb, b, 10, 3);
    assert u.stored == t[b := StockRow(idb, b, 10, 3)];
  }

  /**
   * A repeated product is judged on the tracked row. Product a holds 10
   * units; the request asks twice for 6. The first reservation's save fails,
   * but its 6 units stay on the tracked entity, so the second is refused for
   * want of stock.
   */
  lemma RepeatedProductSeesTrackedRow(a: Guids.Guid, ida: Guids.Guid, m: string)
    ensures var t := map[a := StockRow(ida, a, 10, 0)];
      var rs := Results(Store(t, t), [ReservationItem(a, 6), ReservationItem(a, 6)], [Some(m), None]);
      rs[0].failureReason == Some(ReserveError + m) && rs[1].failureReason == Some(InsufficientStock)
  {
    var t := map[a := StockRow(ida, a, 10, 0)];
    var items := [ReservationItem(a, 6), ReservationItem(a, 6)];
    var saves: seq<Option<string>> := [Some(m), None];
    var s := Store(t, t);
    assert items[..1] == [items[0]];
    assert ReserveAll(s, items[..1], saves) == Store(t, t[a := StockRow(ida, a, 10, 6)]);
  }

  /** Confirming non-negative lines keeps every tracked row consistent and its available quantity as it was, whichever saves failed. */
  lemma {:induction false} ConfirmTrackedKeepsAvailable(s: Store, lines: seq<ConfirmedLine>, saves: seq<Option<string>>)
    requires NoneAdded(s) && AllConsistent(s.tracked)
    requires forall i | 0 <= i < |lines| :: lines[i].quantity >= 0
    ensures NoneAdded(ConfirmAll(s, lines, saves)) && ConfirmAll(s, lines, saves).tracked.Keys == s.tracked.Keys
    ensures AllConsistent(ConfirmAll(s, lines, saves).tracked)
    ensures forall p | p in s.tracked :: Available(ConfirmAll(s, lines, saves).tracked[p]) == Available(s.tracked[p])
  {
    if |lines| > 0 {
      var init, last := lines[..|lines| - 1], lines[|lines| - 1];
      assert forall i | 0 <= i < |init| :: init[i] == lines[i];
      ConfirmTrackedKeepsAvailable(s, init, saves);
      var u := ConfirmAll(s, init, saves);
      var saved := SaveAt(saves, |lines| - 1);
      assert ConfirmAll(s, lines, saves) == ConfirmIn(u, last.productId, last.quantity, saved);
      if CoversIn(u, last.productId, last.quantity) {
        ConfirmKeepsConsistent(u.tracked[last.productId], last.quantity);
      }
    }
  }

  /** Every stored row after the confirmations is a tracked row of some point of the loop, or the initial one. */
  lemma {:induction false} ConfirmStoredWasTracked(s: Store, lines: seq<ConfirmedLine>, saves: seq<Option<string>>)
    requires InSync(s)
    ensures exists k | 0 <= k <= |lines| :: ConfirmAll(s, lines, saves).stored == ConfirmAll(s, lines[..k], saves).tracked
  {
    if |lines| == 0 {
      assert ConfirmAll(s, lines, saves).stored == ConfirmAll(s, lines[..0], saves).tracked;
    } else {
      var init, last := lines[..|lines| - 1], lines[|lines| - 1];
      ConfirmStoredWasTracked(s, init, saves);
      var u := ConfirmAll(s, init, saves);
      var saved := SaveAt(saves, |lines| - 1);
      CommitWritesTracked(u, last.productId, last.quantity, saved);
      assert ConfirmAll(s, lines, saves) == ConfirmIn(u, last.productId, last.quantity, saved);
      if ConfirmAll(s, lines, saves).stored == u.stored {
        var k :| 0 <= k <= |init| && u.stored == ConfirmAll(s, init[..k], saves).tracked;
        assert init[..k] == lines[..k];
      } else {
        assert lines[..|lines|] == lines;
      }
    }
  }

  /**
   * Confirming non-negative lines keeps every tracked row consistent and its
   * available quantity as it was, whichever confirmations failed to save; in
   * a scope that starts in step with the database the same holds of every
   * stored row.
   */
  lemma ConfirmAllKeepsAvailable(s: Store, lines: seq<ConfirmedLine>, saves: seq<Option<string>>)
    requires NoneAdded(s) && AllConsistent(s.tracked)
    requires forall i | 0 <= i < |lines| :: lines[i].quantity >= 0
    ensures NoneAdded(ConfirmAll(s, lines, saves)) && ConfirmAll(s, lines, saves).tracked.Keys == s.tracked.Keys
    ensures AllConsistent(ConfirmAll(s, lines, saves).tracked)
    ensures forall p | p in s.tracked :: Available(ConfirmAll(s, lines, saves).tracked[p]) == Available(s.tracked[p])
    ensures InSync(s) ==> AllConsistent(ConfirmAll(s, lines, saves).stored)
    ensures InSync(s) ==> forall p | p in s.stored :: Available(ConfirmAll(s, lines, saves).stored[p]) == Available(s.stored[p])
  {
    ConfirmTrackedKeepsAvailable(s, lines, saves);
    if InSync(s) {
      ConfirmStoredWasTracked(s, lines, saves);
      var k :| 0 <= k <= |lines| && ConfirmAll(s, lines, saves).stored == ConfirmAll(s, lines[..k], saves).tracked;
      ConfirmTrackedKeepsAvailable(s, lines[..k], saves);
    }
  }

  /**
   * Which confirmations failed to save does not change what the scope
   * tracks; and when the last line is confirmed and its save commits, the
   * database receives every tracked change, those of earlier failed saves
   * included.
   */
  lemma {:induction false} ConfirmCommitWritesEarlier(s: Store, lines: seq<ConfirmedLine>, saves: seq<Option<string>>)
    requires NoneAdded(s)
    ensures NoneAdded(ConfirmAll(s, lines, saves))
    ensures ConfirmAll(s, lines, saves).tracked == ConfirmAll(s, lines, []).tracked
    ensures |lines| > 0 && SaveAt(saves, |lines| - 1).None?
            && CoversIn(ConfirmAll(s, lines[..|lines| - 1], saves), lines[|lines| - 1].productId, lines[|lines| - 1].quantity)
            ==> InSync(ConfirmAll(s, lines, saves))
  {
    if |lines| > 0 {
      var init, last := lines[..|lines| - 1], lines[|lines| - 1];
      ConfirmCommitWritesEarlier(s, init, saves);
      ConfirmCommitWritesEarlier(s, init, []);
      var u, u' := ConfirmAll(s, init, saves), ConfirmAll(s, init, []);
      assert CoversIn(u, last.productId, last.quantity) == CoversIn(u', last.productId, last.quantity);
    }
  }

  /**
   * The carried confirmation, on concrete rows. Products a and b hold 10
   * units with 5 reserved; the order confirms 2 of a and 3 of b. The first
   * save fails and the second commits, and the database ends with both
   * deductions.
   */
  lemma FailedConfirmWrittenByNextSave(a: Guids.Guid, b: Guids.Guid, ida: Guids.Guid, idb: Guids.Guid, m: string)
    requires a != b
    ensures var t := map[a := StockRow(ida, a, 10, 5), b := StockRow(idb, b, 10, 5)];
      ConfirmAll(Store(t, t), [ConfirmedLine(a, 2), ConfirmedLine(b, 3)], [Some(m), None]).stored
        == map[a := StockRow(ida, a, 8, 3), b := StockRow(idb, b, 7, 2)]
  {
    var t := map[a := StockRow(ida, a, 10, 5), b := StockRow(idb, b, 10, 5)];
    var lines := [ConfirmedLine(a, 2), ConfirmedLine(b, 3)];
    assert lines[..1] == [lines[0]];
    assert ConfirmAll(Store(t, t), lines[..1], [Some(m), None]) == Store(t, t[a := StockRow(ida, a, 8, 3)]);
  }

  class StockEventHandler {
    const stockService: StockApplicationService
    /** The events IEventPublisher.PublishAsync delivered to the broker, oldest first. */
    var published: seq<StockEvent>

    constructor (stockService: StockApplicationService)
      ensures this.stockService == stockService && published == []
    {
      this.stockService := stockService;
      published := [];
    }

    /**
     * HandleStockReservationRequestedAsync. `reservationId` stands for the
     * Guid.NewGuid() of each reservation Dto, which the handler discards.
     * `reserveSaves` and `releaseSaves` are the save outcomes of the two loops'
     * calls; `publishFault` is the exception PublishAsync throws, if any. The
     * handler rethrows it (`thrown`): nothing reaches the broker, and the
     * reservations and releases already committed stay.
     */
    method HandleStockReservationRequested(evt: Option<StockReservationRequestedEvent>, reservationId: Guids.Guid,
                                           reserveSaves: seq<Option<string>>, releaseSaves: seq<Option<string>>,
                                           publishFault: Option<string>, now: int)
      returns (thrown: Option<string>)
      requires stockService.Valid()
      modifies this, stockService
      ensures stockService.Valid()
      ensures evt.None? ==> published == old(published) && stockService.store == old(stockService.store) && thrown.None?
      ensures evt.Some? ==> thrown == publishFault
      ensures evt.Some? ==>
        var t0 := old(stockService.store);
        var rs := Results(t0, evt.value.items, reserveSaves);
        var sent := if AllSucceeded(rs) then StockReserved(evt.value.orderId, ReservedItems(rs), now)
                    else StockReservationFailed(evt.value.orderId, FailureReason(rs), ResultItems(rs), now);
        && stockService.store == (if AllSucceeded(rs) then ReserveAll(t0, evt.value.items, reserveSaves)
                                   else ReleaseResults(ReserveAll(t0, evt.value.items, reserveSaves), SuccessfulOnly(rs), releaseSaves))
        && published == old(published) + (if publishFault.None? then [sent] else [])
    {
      if evt.None? {
        return None;
      }
      var e := evt.value;
      var results, allItemsReserved := ReserveItems(e, reservationId, reserveSaves, now);
      var sent;
      if allItemsReserved {
        sent := StockReserved(e.orderId, ReservedItems(results), now);
      } else {
        ReleaseSuccessfulReservations(e.orderId, results, releaseSaves);
        sent := StockReservationFailed(e.orderId, FailureReason(results), ResultItems(results), now);
      }
      if publishFault.Some? {
        return publishFault;
      }
      published := published + [sent];
      thrown := None;
    }

    /** The first loop of HandleStockReservationRequestedAsync: one ReserveStockAsync per item, no short-circuit. */
    method ReserveItems(e: StockReservationRequestedEvent, reservationId: Guids.Guid, saves: seq<Option<string>>, now: int)
      returns (results: seq<ReservationResult>, allItemsReserved: bool)
      requires stockService.Valid()
      modifies stockService
      ensures stockService.Valid()
      ensures stockService.store == ReserveAll(old(stockService.store), e.items, saves)
      ensures results == Results(old(stockService.store), e.items, saves)
      ensures allItemsReserved <==> AllSucceeded(results)
    {
      ghost var t0 := stockService.store;
      allItemsReserved := true;
      results := [];
      var i := 0;
      while i < |e.items|
        invariant 0 <= i <= |e.items|
        invariant stockService.Valid()
        invariant stockService.store == ReserveAll(t0, e.items[..i], saves)
        invariant results == Results(t0, e.items[..i], saves)
        invariant allItemsReserved <==> AllSucceeded(results)
      {
        ghost var before := results;
        var result := ReserveItem(e.items[i], e.orderId, reservationId, SaveAt(saves, i), now);
        if !result.isSuccess {
          allItemsReserved := false;
        }
        results := results + [result];
        ReserveOneMore(t0, e.items, i, saves);
        AllSucceededSnoc(before, result);
        i := i + 1;
      }
      assert e.items[..i] == e.items;
    }

    /** The first loop's body for one item: ReserveStockAsync, and the result entry it records. */
    method ReserveItem(item: ReservationItem, orderId: Guids.Guid, reservationId: Guids.Guid, saved: Option<string>, now: int)
      returns (result: ReservationResult)
      requires stockService.Valid()
      modifies stockService
      ensures stockService.Valid()
      ensures stockService.store == ReserveIn(old(stockService.store), item.productId, item.quantity, saved)
      ensures result == ResultFor(old(stockService.store), item, saved)
    {
      var reply := stockService.ReserveStock(ReserveStockRequest(item.productId, item.quantity, orderId), reservationId, saved, now);
      if reply.isSuccessful {
        result := ReservationResult(Guids.Format(item.productId), item.quantity, true, item.quantity, None);
      } else {
        result := ReservationResult(Guids.Format(item.productId), item.quantity, false, 0, Some(reply.Message()));
      }
    }

    /** ReleaseSuccessfulReservationsAsync: releases each successful result with its own quantity. */
    method ReleaseSuccessfulReservations(orderId: Guids.Guid, results: seq<ReservationResult>, saves: seq<Option<string>>)
      requires stockService.Valid()
      modifies stockService
      ensures stockService.Valid()
      ensures stockService.store == ReleaseResults(old(stockService.store), SuccessfulOnly(results), saves)
    {
      var successful := SuccessfulOnly(results);
      ghost var t0 := stockService.store;
      var j := 0;
      while j < |successful|
        invariant 0 <= j <= |successful|
        invariant stockService.Valid()
        invariant stockService.store == ReleaseResults(t0, successful[..j], saves)
      {
        assert successful[..j + 1][..j] == successful[..j];
        var reservation := successful[j];
        var productId := Guids.Parse(reservation.productId);
        if productId.Some? {
          var _ := stockService.ReleaseReservation(productId.value, orderId, reservation.quantity, SaveAt(saves, j));
        }
        j := j + 1;
      }
      assert successful[..j] == successful;
    }

    /** HandleOrderConfirmedAsync: one ConfirmReservationAsync per line, in order, carrying on past failures. */
    method HandleOrderConfirmed(evt: Option<OrderConfirmedEvent>, saves: seq<Option<string>>)
      requires stockService.Valid()
      modifies stockService
      ensures stockService.Valid()
      ensures evt.None? ==> stockService.store == old(stockService.store)
      ensures evt.Some? ==> stockService.store == ConfirmAll(old(stockService.store), evt.value.orderLines, saves)
    {
      if evt.None? {
        return;
      }
      var e := evt.value;
      ghost var t0 := stockService.store;
      var i := 0;
      while i < |e.orderLines|
        invariant 0 <= i <= |e.orderLines|
        invariant stockService.Valid()
        invariant stockService.store == ConfirmAll(t0, e.orderLines[..i], saves)
      {
        assert e.orderLines[..i + 1][..i] == e.orderLines[..i];
        var line := e.orderLines[i];
        var _ := stockService.ConfirmReservation(line.productId, e.orderId, line.quantity, SaveAt(saves, i));
        i := i + 1;
      }
      assert e.orderLines[..i] == e.orderLines;
    }
  }
}
