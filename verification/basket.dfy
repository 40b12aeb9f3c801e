/**
 * The basket panel's controller: the three pieces of state it keeps
 * (the basket lines, a loading flag, an error message), the handlers that
 * talk to the basket endpoints, the classification of a rejected quantity
 * update, and the totals derived from the lines.
 *
 * Every remote call is replaced by a parameter that says how it settled,
 * and the controller records, in `sent`, which calls it issued and in
 * which order.
 */
module Basket {
  import opened Wrappers
  import opened Types
  import opened Text

  /** The remote basket calls the controller issues. */
  datatype BasketRequest =
    | FetchBasket
    | UpdateItem(itemId: int, quantity: int)
    | RemoveItem(itemId: int)
    | ClearBasket

  /** Everything the controller keeps, plus the log of issued calls. */
  datatype BasketView = BasketView(
    items: seq<BasketItem>,
    loading: bool,
    error: Option<string>,
    sent: seq<BasketRequest>)

  const LoadFailed := "Failed to load basket"
  const UpdateFailed := "Failed to update item"
  const InsufficientStock := "Insufficient stock available"
  const StockLimit := "Stock limit exceeded"
  const RemoveFailed := "Failed to remove item"
  const ClearFailed := "Failed to clear basket"

  /** The state before the first load: no lines, loading, no error. */
  const Initial := BasketView([], true, None, [])

  // ---------------------------------------------------------------------
  // Classification of a rejected quantity update
  // ---------------------------------------------------------------------

  /**
   * The message shown for a rejected quantity update. Only an `Error` whose
   * message mentions status 400 gets a specific message; "Only ... available"
   * is checked before "Cannot set quantity"; everything else is generic.
   */
  function ClassifyUpdateError(err: Thrown): (m: string)
    ensures m == InsufficientStock || m == StockLimit || m == UpdateFailed
    ensures m == InsufficientStock <==>
      err.ErrorValue? && Includes(err.message, "400")
      && Includes(err.message, "Only") && Includes(err.message, "available")
    ensures m == StockLimit <==>
      err.ErrorValue? && Includes(err.message, "400")
      && !(Includes(err.message, "Only") && Includes(err.message, "available"))
      && Includes(err.message, "Cannot set quantity")
    ensures !(err.ErrorValue? && Includes(err.message, "400")) ==> m == UpdateFailed
  {
    if err.ErrorValue? && Includes(err.message, "400") then
      if Includes(err.message, "Only") && Includes(err.message, "available") then InsufficientStock
      else if Includes(err.message, "Cannot set quantity") then StockLimit
      else UpdateFailed
    else
      UpdateFailed
  }

  /** A rejection whose message carries the status and the stock wording is classified as insufficient stock. */
  lemma ClassifyStockMessage()
    ensures ClassifyUpdateError(ErrorValue("400: Only 2 available")) == InsufficientStock
  {
    var msg := "400: Only 2 available";
    assert OccursAt("400", msg, 0);
    assert OccursAt("Only", msg, 5);
    assert OccursAt("available", msg, 12);
  }

  /** A thrown value that is not an `Error`, even one with a `message` property, always gets the generic message. */
  lemma ClassifyNonError(err: Thrown)
    requires !err.ErrorValue?
    ensures ClassifyUpdateError(err) == UpdateFailed
  {
  }

  // ---------------------------------------------------------------------
  // Totals and the clear button
  // ---------------------------------------------------------------------

  /** The sum of the line quantities, as a right fold: the reference for the item count. */
  ghost function QuantitySum(items: seq<BasketItem>): int
  {
    if items == [] then 0 else items[0].quantity + QuantitySum(items[1..])
  }

  /** The sum of price times quantity over the lines, as a right fold: the reference for the value. */
  ghost function PriceSum(items: seq<BasketItem>): real
  {
    if items == [] then 0.0 else items[0].product.price * (items[0].quantity as real) + PriceSum(items[1..])
  }

  /** The left fold the heading's count uses: add each line's quantity to `acc`, first line first. */
  function SumQuantities(acc: int, items: seq<BasketItem>): int
    decreases |items|
  {
    if items == [] then acc else SumQuantities(acc + items[0].quantity, items[1..])
  }

  /** The left fold the total uses: add each line's price times quantity to `acc`, first line first. */
  function SumValues(acc: real, items: seq<BasketItem>): real
    decreases |items|
  {
    if items == [] then acc
    else SumValues(acc + items[0].product.price * (items[0].quantity as real), items[1..])
  }

  lemma {:induction false} SumQuantitiesFrom(acc: int, items: seq<BasketItem>)
    ensures SumQuantities(acc, items) == acc + QuantitySum(items)
    decreases |items|
  {
    if items != [] {
      SumQuantitiesFrom(acc + items[0].quantity, items[1..]);
    }
  }

  lemma {:induction false} SumValuesFrom(acc: real, items: seq<BasketItem>)
    ensures SumValues(acc, items) == acc + PriceSum(items)
    decreases |items|
  {
    if items != [] {
      SumValuesFrom(acc + items[0].product.price * (items[0].quantity as real), items[1..]);
    }
  }

  /** The item count shown in the heading: the sum of the quantities of all lines. */
  function TotalItems(items: seq<BasketItem>): (n: int)
    ensures n == QuantitySum(items)
  {
    SumQuantitiesFrom(0, items);
    SumQuantities(0, items)
  }

  /** The basket value shown under "Total": the sum over all lines of price times quantity. */
  function TotalValue(items: seq<BasketItem>): (v: real)
    ensures v == PriceSum(items)
  {
    SumValuesFrom(0.0, items);
    SumValues(0.0, items)
  }

  /** The item count of two runs of lines is the sum of their counts. */
  lemma {:induction false} TotalItemsAppend(a: seq<BasketItem>, b: seq<BasketItem>)
    ensures TotalItems(a + b) == TotalItems(a) + TotalItems(b)
    decreases |a|
  {
    if a != [] {
      assert (a + b)[0] == a[0] && (a + b)[1..] == a[1..] + b;
      TotalItemsAppend(a[1..], b);
    } else {
      assert a + b == b;
    }
  }

  /** The basket value of two runs of lines is the sum of their values. */
  lemma {:induction false} TotalValueAppend(a: seq<BasketItem>, b: seq<BasketItem>)
    ensures TotalValue(a + b) == TotalValue(a) + TotalValue(b)
    decreases |a|
  {
    if a != [] {
      assert (a + b)[0] == a[0] && (a + b)[1..] == a[1..] + b;
      TotalValueAppend(a[1..], b);
    } else {
      assert a + b == b;
    }
  }

  /** Dropping line `k` lowers the count by its quantity and the value by its price times its quantity. */
  lemma TotalsWithoutLine(items: seq<BasketItem>, k: int)
    requires 0 <= k < |items|
    ensures TotalItems(items[..k] + items[k + 1..]) == TotalItems(items) - items[k].quantity
    ensures TotalValue(items[..k] + items[k + 1..])
         == TotalValue(items) - items[k].product.price * (items[k].quantity as real)
  {
    assert items == items[..k] + [items[k]] + items[k + 1..];
    var x := items[k];
    assert [x][1..] == [];
    assert QuantitySum([x]) == x.quantity + QuantitySum([]);
    assert PriceSum([x]) == x.product.price * (x.quantity as real) + PriceSum([]);
    TotalItemsAppend(items[..k] + [items[k]], items[k + 1..]);
    TotalItemsAppend(items[..k], [items[k]]);
    TotalItemsAppend(items[..k], items[k + 1..]);
    TotalValueAppend(items[..k] + [items[k]], items[k + 1..]);
    TotalValueAppend(items[..k], [items[k]]);
    TotalValueAppend(items[..k], items[k + 1..]);
  }

  /** Every line of the basket holds at least one unit. */
  ghost predicate AllLinesPositive(items: seq<BasketItem>)
  {
    forall k :: 0 <= k < |items| ==> items[k].quantity >= 1
  }

  /** With every quantity at least 1, the count is at least the number of lines, and 0 only for an empty basket. */
  lemma {:induction false} TotalItemsAtLeastLines(items: seq<BasketItem>)
    requires AllLinesPositive(items)
    ensures TotalItems(items) >= |items|
    ensures TotalItems(items) == 0 <==> items == []
    decreases |items|
  {
    if items != [] {
      TotalItemsAtLeastLines(items[1..]);
    }
  }

  /**
   * The "Clear All" button. While loading only the loading notice is
   * rendered, so the button is offered only when the panel is not loading
   * and holds at least one line.
   */
  function ClearAllVisible(v: BasketView): bool
  {
    !v.loading && |v.items| > 0
  }

  // ---------------------------------------------------------------------
  // The handlers, as transitions of the controller's state
  // ---------------------------------------------------------------------

  /** The lines after a basket read: the server's list if it resolved, the old lines otherwise. */
  function ItemsAfterRead(before: seq<BasketItem>, fetched: Result<seq<BasketItem>, Thrown>): seq<BasketItem>
  {
    if fetched.Success? then fetched.value else before
  }

  /** The error after a basket read: cleared if it resolved, its message (or the default) otherwise. */
  function ErrorAfterRead(fetched: Result<seq<BasketItem>, Thrown>): Option<string>
  {
    if fetched.Success? then None else Some(MessageOr(fetched.error, LoadFailed))
  }

  /**
   * `loadBasket`: one basket read. A failed read keeps the lines it had and
   * reports the failure; either way loading ends.
   */
  function AfterLoad(s: BasketView, fetched: Result<seq<BasketItem>, Thrown>): (r: BasketView)
    ensures r.sent == s.sent + [FetchBasket] && !r.loading
    ensures fetched.Success? ==> r.items == fetched.value && r.error == None
    ensures fetched.Failure? ==> r.items == s.items
    ensures fetched.Failure? && fetched.error.ErrorValue? ==> r.error == Some(fetched.error.message)
    ensures fetched.Failure? && !fetched.error.ErrorValue? ==> r.error == Some(LoadFailed)
  {
    BasketView(ItemsAfterRead(s.items, fetched), false, ErrorAfterRead(fetched), s.sent + [FetchBasket])
  }

  /**
   * `handleRemoveItem`: delete the line, then re-read the basket. A rejected
   * delete reports its message (or the default) and does NOT re-read.
   */
  function AfterRemove(s: BasketView, itemId: int, removed: Result<(), Thrown>,
                       reloaded: Result<seq<BasketItem>, Thrown>): (r: BasketView)
    ensures removed.Success? ==> r.sent == s.sent + [RemoveItem(itemId), FetchBasket]
    ensures removed.Success? ==> r.items == ItemsAfterRead(s.items, reloaded)
    ensures removed.Success? ==> r.error == ErrorAfterRead(reloaded) && !r.loading
    ensures removed.Failure? ==> r.sent == s.sent + [RemoveItem(itemId)]
    ensures removed.Failure? ==> r.items == s.items && r.loading == s.loading
    ensures removed.Failure? && removed.error.ErrorValue? ==> r.error == Some(removed.error.message)
    ensures removed.Failure? && !removed.error.ErrorValue? ==> r.error == Some(RemoveFailed)
  {
    var issued := s.(sent := s.sent + [RemoveItem(itemId)]);
    match removed
    case Success(_) => AfterLoad(issued, reloaded)
    case Failure(e) => issued.(error := Some(MessageOr(e, RemoveFailed)))
  }

  /**
   * `handleClearBasket`: empty the basket, then re-read it. A rejected clear
   * reports its message (or the default) and does NOT re-read.
   */
  function AfterClear(s: BasketView, cleared: Result<(), Thrown>,
                      reloaded: Result<seq<BasketItem>, Thrown>): (r: BasketView)
    ensures cleared.Success? ==> r.sent == s.sent + [ClearBasket, FetchBasket]
    ensures cleared.Success? ==> r.items == ItemsAfterRead(s.items, reloaded)
    ensures cleared.Success? ==> r.error == ErrorAfterRead(reloaded) && !r.loading
    ensures cleared.Failure? ==> r.sent == s.sent + [ClearBasket]
    ensures cleared.Failure? ==> r.items == s.items && r.loading == s.loading
    ensures cleared.Failure? && cleared.error.ErrorValue? ==> r.error == Some(cleared.error.message)
    ensures cleared.Failure? && !cleared.error.ErrorValue? ==> r.error == Some(ClearFailed)
  {
    var issued := s.(sent := s.sent + [ClearBasket]);
    match cleared
    case Success(_) => AfterLoad(issued, reloaded)
    case Failure(e) => issued.(error := Some(MessageOr(e, ClearFailed)))
  }

  /**
   * `handleQuantityChange`. A quantity of 0 or less is a removal of the line
   * (`outcome` is then the delete's outcome). Otherwise the update is sent
   * (`outcome` is its outcome) and the basket is re-read in both cases; after
   * an accepted update the error is cleared, after a rejected one the
   * classified message is set and then the re-read decides the error.
   */
  function AfterQuantityChange(s: BasketView, itemId: int, newQuantity: int, outcome: Result<(), Thrown>,
                               reloaded: Result<seq<BasketItem>, Thrown>): (r: BasketView)
    ensures newQuantity <= 0 ==> r == AfterRemove(s, itemId, outcome, reloaded)
    ensures newQuantity > 0 ==> r.sent == s.sent + [UpdateItem(itemId, newQuantity), FetchBasket]
    ensures newQuantity > 0 ==> r.items == ItemsAfterRead(s.items, reloaded) && !r.loading
    ensures newQuantity > 0 && outcome.Success? ==> r.error == None
    ensures newQuantity > 0 && outcome.Failure? ==> r.error == ErrorAfterRead(reloaded)
  {
    if newQuantity <= 0 then
      AfterRemove(s, itemId, outcome, reloaded)
    else
      var issued := s.(sent := s.sent + [UpdateItem(itemId, newQuantity)]);
      match outcome
      case Success(_) => AfterLoad(issued, reloaded).(error := None)
      case Failure(e) => AfterLoad(issued.(error := Some(ClassifyUpdateError(e))), reloaded)
  }

  // ---------------------------------------------------------------------
  // Properties of the handlers
  // ---------------------------------------------------------------------

  /** No update request ever carries a quantity below 1. */
  ghost predicate UpdatesPositive(sent: seq<BasketRequest>)
  {
    forall k :: 0 <= k < |sent| && sent[k].UpdateItem? ==> sent[k].quantity >= 1
  }

  /** Every handler keeps the request log free of non-positive quantity updates. */
  lemma HandlersKeepUpdatesPositive(s: BasketView, itemId: int, newQuantity: int, outcome: Result<(), Thrown>,
                                    reloaded: Result<seq<BasketItem>, Thrown>)
    requires UpdatesPositive(s.sent)
    ensures UpdatesPositive(AfterLoad(s, reloaded).sent)
    ensures UpdatesPositive(AfterRemove(s, itemId, outcome, reloaded).sent)
    ensures UpdatesPositive(AfterClear(s, outcome, reloaded).sent)
    ensures UpdatesPositive(AfterQuantityChange(s, itemId, newQuantity, outcome, reloaded).sent)
  {
  }

  /**
   * The lines shown after any handler are either the lines shown before or
   * the list the server returned: a requested quantity is never shown
   * before the server confirms it.
   */
  lemma LinesComeFromServer(s: BasketView, itemId: int, newQuantity: int, outcome: Result<(), Thrown>,
                            reloaded: Result<seq<BasketItem>, Thrown>)
    ensures var r := AfterQuantityChange(s, itemId, newQuantity, outcome, reloaded);
      r.items == s.items || (reloaded.Success? && r.items == reloaded.value)
    ensures var r := AfterRemove(s, itemId, outcome, reloaded);
      r.items == s.items || (reloaded.Success? && r.items == reloaded.value)
    ensures var r := AfterClear(s, outcome, reloaded);
      r.items == s.items || (reloaded.Success? && r.items == reloaded.value)
  {
  }

  /** The minus control on a line of quantity 1 does exactly what its trash control does. */
  lemma DecrementOfSingleIsRemoval(s: BasketView, item: BasketItem, outcome: Result<(), Thrown>,
                                   reloaded: Result<seq<BasketItem>, Thrown>)
    requires item.quantity == 1
    ensures AfterQuantityChange(s, item.id, item.quantity - 1, outcome, reloaded)
         == AfterRemove(s, item.id, outcome, reloaded)
  {
  }

  /**
   * The classified message of a rejected update never survives: the re-read
   * that follows it overwrites the error, so the final state does not depend
   * on how the rejection was classified, and after a successful re-read the
   * error is cleared.
   */
  lemma ClassificationIsOverwritten(s: BasketView, itemId: int, newQuantity: int, e1: Thrown, e2: Thrown,
                                    reloaded: Result<seq<BasketItem>, Thrown>)
    requires newQuantity > 0
    ensures AfterQuantityChange(s, itemId, newQuantity, Failure(e1), reloaded)
         == AfterQuantityChange(s, itemId, newQuantity, Failure(e2), reloaded)
    ensures reloaded.Success? ==> AfterQuantityChange(s, itemId, newQuantity, Failure(e1), reloaded).error == None
  {
  }

  /**
   * An accepted update whose re-read fails keeps the old lines on screen and
   * reports nothing: clearing the error after the re-read erases the read's
   * own failure message.
   */
  lemma AcceptedUpdateHidesReadFailure(s: BasketView, itemId: int, newQuantity: int, e: Thrown)
    requires newQuantity > 0
    ensures var r := AfterQuantityChange(s, itemId, newQuantity, Success(()), Failure(e));
      r.items == s.items && r.error == None && AfterLoad(s, Failure(e)).error != None
  {
  }

  /**
   * A rejected increment on a line at its stock ceiling: the server's list,
   * still at quantity 2, is what is shown afterwards, and no error remains.
   */
  lemma RejectedIncrementKeepsServerQuantity(s: BasketView)
    ensures var product := Product(7, "Mouse", 10.0, None, 2);
      var line := BasketItem(1, 7, 2, product);
      var r := AfterQuantityChange(s.(items := [line]), line.id, line.quantity + 1,
                                   Failure(ErrorValue("400: Only 2 available")), Success([line]));
      r.items == [line] && r.items[0].quantity == 2 && r.error == None && TotalItems(r.items) == 2
  {
  }

  /** Clearing an empty basket that the server confirms empty leaves it empty, with no error and no button. */
  lemma ClearEmptyBasket(s: BasketView)
    requires s.items == []
    ensures var r := AfterClear(s, Success(()), Success([]));
      r.items == [] && r.error == None && !ClearAllVisible(r) && TotalItems(r.items) == 0
  {
  }

  /**
   * Once a read has settled, "Clear All" is offered exactly when the basket
   * it shows is non-empty: the server's list after a successful read, the
   * lines shown before after a failed one. This holds after a load and after
   * every handler that re-reads.
   */
  lemma ClearAllAfterRead(s: BasketView, itemId: int, newQuantity: int, outcome: Result<(), Thrown>,
                          reloaded: Result<seq<BasketItem>, Thrown>)
    ensures reloaded.Success? ==> (ClearAllVisible(AfterLoad(s, reloaded)) <==> reloaded.value != [])
    ensures reloaded.Failure? ==> (ClearAllVisible(AfterLoad(s, reloaded)) <==> s.items != [])
    ensures reloaded.Success? && outcome.Success? ==>
      (ClearAllVisible(AfterRemove(s, itemId, outcome, reloaded)) <==> reloaded.value != [])
    ensures reloaded.Success? && outcome.Success? ==>
      (ClearAllVisible(AfterClear(s, outcome, reloaded)) <==> reloaded.value != [])
    ensures reloaded.Success? && newQuantity > 0 ==>
      (ClearAllVisible(AfterQuantityChange(s, itemId, newQuantity, outcome, reloaded)) <==> reloaded.value != [])
  {
  }

  /** Whenever "Clear All" is offered over lines of at least one unit each, the heading counts at least one item. */
  lemma ClearAllMeansItems(v: BasketView)
    requires ClearAllVisible(v) && AllLinesPositive(v.items)
    ensures TotalItems(v.items) >= 1
  {
    TotalItemsAtLeastLines(v.items);
  }

  // ---------------------------------------------------------------------
  // The controller
  // ---------------------------------------------------------------------

  class BasketController {
    var basketItems: seq<BasketItem>
    var loading: bool
    var error: Option<string>
    /** The remote calls issued so far, oldest first. */
    var sent: seq<BasketRequest>

    function State(): BasketView
      reads this
    {
      BasketView(basketItems, loading, error, sent)
    }

    /** A freshly mounted panel; mounting then runs `LoadBasket`. */
    constructor ()
      ensures State() == Initial
    {
      basketItems := [];
      loading := true;
      error := None;
      sent := [];
    }

    /** `loadBasket`, run on mount and whenever the refresh key changes. */
    method LoadBasket(fetched: Result<seq<BasketItem>, Thrown>)
      modifies this
      ensures State() == AfterLoad(old(State()), fetched)
    {
      loading := true;
      sent := sent + [FetchBasket];
      match fetched {
        case Success(items) =>
          basketItems := items;
          error := None;
        case Failure(e) =>
          error := Some(MessageOr(e, LoadFailed));
      }
      loading := false;
    }

    /** `handleRemoveItem`; `removed` is how the delete settled, `reloaded` how the re-read settled. */
    method HandleRemoveItem(itemId: int, removed: Result<(), Thrown>, reloaded: Result<seq<BasketItem>, Thrown>)
      modifies this
      ensures State() == AfterRemove(old(State()), itemId, removed, reloaded)
    {
      sent := sent + [RemoveItem(itemId)];
      match removed {
        case Success(_) =>
          LoadBasket(reloaded);
        case Failure(e) =>
          error := Some(MessageOr(e, RemoveFailed));
      }
    }

    /** `handleClearBasket`; `cleared` is how the clear settled, `reloaded` how the re-read settled. */
    method HandleClearBasket(cleared: Result<(), Thrown>, reloaded: Result<seq<BasketItem>, Thrown>)
      modifies this
      ensures State() == AfterClear(old(State()), cleared, reloaded)
    {
      sent := sent + [ClearBasket];
      match cleared {
        case Success(_) =>
          LoadBasket(reloaded);
        case Failure(e) =>
          error := Some(MessageOr(e, ClearFailed));
      }
    }

    /**
     * `handleQuantityChange`; `outcome` is how the issued mutation (the
     * update, or the delete for a quantity of 0 or less) settled.
     */
    method HandleQuantityChange(itemId: int, newQuantity: int, outcome: Result<(), Thrown>,
                                reloaded: Result<seq<BasketItem>, Thrown>)
      modifies this
      ensures State() == AfterQuantityChange(old(State()), itemId, newQuantity, outcome, reloaded)
    {
      if newQuantity <= 0 {
        HandleRemoveItem(itemId, outcome, reloaded);
        return;
      }
      sent := sent + [UpdateItem(itemId, newQuantity)];
      match outcome {
        case Success(_) =>
          LoadBasket(reloaded);
          error := None;
        case Failure(e) =>
          error := Some(ClassifyUpdateError(e));
          LoadBasket(reloaded);
      }
    }

    /** The minus control of a line: asks for one less of that line. */
    method Decrement(item: BasketItem, outcome: Result<(), Thrown>, reloaded: Result<seq<BasketItem>, Thrown>)
      modifies this
      ensures State() == AfterQuantityChange(old(State()), item.id, item.quantity - 1, outcome, reloaded)
    {
      HandleQuantityChange(item.id, item.quantity - 1, outcome, reloaded);
    }

    /** The plus control of a line: asks for one more of that line. */
    method Increment(item: BasketItem, outcome: Result<(), Thrown>, reloaded: Result<seq<BasketItem>, Thrown>)
      modifies this
      ensures State() == AfterQuantityChange(old(State()), item.id, item.quantity + 1, outcome, reloaded)
    {
      HandleQuantityChange(item.id, item.quantity + 1, outcome, reloaded);
    }
  }
}
