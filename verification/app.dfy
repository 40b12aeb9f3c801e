/**
 * The page controller: which product is selected, which dialogs are open,
 * and the two refresh keys. Bumping `refreshKey` remounts the product list;
 * bumping `basketRefreshKey` makes the basket panel reload.
 *
 * Each handler is run to completion: the remote call's outcome is a
 * parameter, and `sent` records the calls issued, `alerts` the alerts shown.
 */
module App {
  import opened Wrappers
  import opened Types
  import Basket
  import ProductForm

  /** The remote calls the page issues. */
  datatype AppRequest =
    | AddProduct(product: ProductCreate)
    | UpdateProduct(id: int, product: ProductCreate)
    | DeleteProduct(id: int)
    | AddToBasket(productId: int, quantity: int)

  const OutOfStockAlert := "This product is out of stock"

  const AddFailedPrefix := "Failed to add to basket: "

  /**
   * The alert raised when adding to the basket is rejected: the fixed prefix
   * followed by the rejection's `message` property, which reads "undefined"
   * when the value has none. Reading a property of `null` or `undefined`
   * throws inside the rejection handler, so then no alert is raised at all.
   */
  function AddFailedAlert(err: Thrown): (alert: Option<string>)
    ensures alert.None? <==> err.Nullish?
    ensures alert.Some? ==> |AddFailedPrefix| <= |alert.value| && alert.value[..|AddFailedPrefix|] == AddFailedPrefix
    ensures err.ErrorValue? ==> alert.value[|AddFailedPrefix|..] == err.message
    ensures err.OtherValue? && err.ownMessage.Some? ==> alert.value[|AddFailedPrefix|..] == err.ownMessage.value
    ensures err.OtherValue? && err.ownMessage.None? ==> alert.value[|AddFailedPrefix|..] == "undefined"
  {
    match err
    case ErrorValue(msg) => Some(AddFailedPrefix + msg)
    case OtherValue(Some(msg)) => Some(AddFailedPrefix + msg)
    case OtherValue(None) => Some(AddFailedPrefix + "undefined")
    case Nullish => None
  }

  /** The alerts an outcome appends to the log: the one raised, if any. */
  function AlertsOf(alert: Option<string>): seq<string>
  {
    if alert.Some? then [alert.value] else []
  }

  class AppController {
    var selected: Option<Product>
    var showAdd: bool
    var showEdit: bool
    var showDelete: bool
    var showDetails: bool
    var refreshKey: nat
    var basketRefreshKey: nat
    /** The remote calls issued so far, oldest first. */
    var sent: seq<AppRequest>
    /** The alerts shown so far, oldest first. */
    var alerts: seq<string>
    /** The basket panel, which reloads whenever `basketRefreshKey` changes. */
    const basket: Basket.BasketController

    constructor ()
      ensures selected == None && !showAdd && !showEdit && !showDelete && !showDetails
      ensures refreshKey == 0 && basketRefreshKey == 0 && sent == [] && alerts == []
      ensures fresh(basket) && basket.State() == Basket.Initial
    {
      selected := None;
      showAdd, showEdit, showDelete, showDetails := false, false, false, false;
      refreshKey, basketRefreshKey := 0, 0;
      sent, alerts := [], [];
      basket := new Basket.BasketController();
    }

    /** Neither refresh key went down between the two states. */
    twostate predicate KeysNeverDecrease()
      reads this
    {
      old(refreshKey) <= refreshKey && old(basketRefreshKey) <= basketRefreshKey
    }

    /** The details dialog is open exactly when it was asked for and a product is selected. */
    function DetailsOpen(): bool
      reads this
    {
      showDetails && selected != None
    }

    /**
     * The `initial` the edit dialog's form receives: the selected product, or
     * nothing when no product is selected. The form then starts from the
     * product's own values and offers "Save Changes"; without a selection it
     * is an empty creation form.
     */
    function EditFormInitial(): (i: Option<ProductForm.InitialValues>)
      reads this
      ensures i.Some? <==> selected.Some?
      ensures ProductForm.IsEdit(i) <==> selected.Some?
      ensures selected.Some? ==>
        ProductForm.InitialForm(i) == ProductCreate(selected.value.name, selected.value.price,
          ProductForm.OrElse(selected.value.description, ""), selected.value.stock as real)
      ensures selected.None? ==> ProductForm.InitialForm(i) == ProductCreate("", 0.0, "", 0.0)
      ensures ProductForm.SubmitLabel(ProductForm.IsEdit(i), false) == "Save Changes" <==> selected.Some?
    {
      match selected
      case Some(p) =>
        ProductForm.EditFormFromProduct(p);
        Some(ProductForm.FromProduct(p))
      case None => None
    }

    /** The "Add Product" button. */
    method OpenAdd()
      modifies this
      ensures KeysNeverDecrease()
      ensures showAdd
      ensures selected == old(selected) && showEdit == old(showEdit) && showDelete == old(showDelete)
      ensures showDetails == old(showDetails)
      ensures refreshKey == old(refreshKey) && basketRefreshKey == old(basketRefreshKey)
      ensures sent == old(sent) && alerts == old(alerts)
    {
      showAdd := true;
    }

    /** A card's select or view action: selects the product and asks for its details. */
    method ViewProduct(p: Product)
      modifies this
      ensures KeysNeverDecrease()
      ensures selected == Some(p) && showDetails && DetailsOpen()
      ensures showAdd == old(showAdd) && showEdit == old(showEdit) && showDelete == old(showDelete)
      ensures refreshKey == old(refreshKey) && basketRefreshKey == old(basketRefreshKey)
      ensures sent == old(sent) && alerts == old(alerts)
    {
      selected := Some(p);
      showDetails := true;
    }

    /** A card's edit action: selects the product and opens the edit dialog. */
    method EditProduct(p: Product)
      modifies this
      ensures KeysNeverDecrease()
      ensures selected == Some(p) && showEdit
      ensures showAdd == old(showAdd) && showDelete == old(showDelete) && showDetails == old(showDetails)
      ensures refreshKey == old(refreshKey) && basketRefreshKey == old(basketRefreshKey)
      ensures sent == old(sent) && alerts == old(alerts)
    {
      selected := Some(p);
      showEdit := true;
    }

    /** A card's delete action: selects the product and opens the confirmation dialog. */
    method ConfirmDelete(p: Product)
      modifies this
      ensures KeysNeverDecrease()
      ensures selected == Some(p) && showDelete
      ensures showAdd == old(showAdd) && showEdit == old(showEdit) && showDetails == old(showDetails)
      ensures refreshKey == old(refreshKey) && basketRefreshKey == old(basketRefreshKey)
      ensures sent == old(sent) && alerts == old(alerts)
    {
      selected := Some(p);
      showDelete := true;
    }

    /** Closing a dialog (its close control, backdrop or cancel button) clears only its flag. */
    method CloseDialogs(add: bool, edit: bool, delete: bool, details: bool)
      modifies this
      ensures KeysNeverDecrease()
      ensures showAdd == (old(showAdd) && !add) && showEdit == (old(showEdit) && !edit)
      ensures showDelete == (old(showDelete) && !delete) && showDetails == (old(showDetails) && !details)
      ensures selected == old(selected)
      ensures refreshKey == old(refreshKey) && basketRefreshKey == old(basketRefreshKey)
      ensures sent == old(sent) && alerts == old(alerts)
    {
      if add { showAdd := false; }
      if edit { showEdit := false; }
      if delete { showDelete := false; }
      if details { showDetails := false; }
    }

    /**
     * `handleAdded`: creates the product; once created the add dialog closes
     * and the product list refreshes. A rejection is not caught and changes
     * nothing.
     */
    method HandleAdded(p: ProductCreate, created: Result<Product, Thrown>)
      modifies this
      ensures KeysNeverDecrease()
      ensures sent == old(sent) + [AddProduct(p)] && alerts == old(alerts)
      ensures created.Success? ==> !showAdd && refreshKey == old(refreshKey) + 1
      ensures created.Failure? ==> showAdd == old(showAdd) && refreshKey == old(refreshKey)
      ensures selected == old(selected) && showEdit == old(showEdit) && showDelete == old(showDelete)
      ensures showDetails == old(showDetails) && basketRefreshKey == old(basketRefreshKey)
    {
      sent := sent + [AddProduct(p)];
      if created.Success? {
        showAdd := false;
        refreshKey := refreshKey + 1;
      }
    }

    /**
     * `handleUpdated`: without a selection nothing happens. Otherwise the
     * selected product is updated; once updated the edit dialog closes and
     * the product list refreshes. A rejection changes nothing.
     */
    method HandleUpdated(p: ProductCreate, updated: Result<Product, Thrown>)
      modifies this
      ensures KeysNeverDecrease()
      ensures old(selected).None? ==> sent == old(sent) && showEdit == old(showEdit) && refreshKey == old(refreshKey)
      ensures old(selected).Some? ==> sent == old(sent) + [UpdateProduct(old(selected).value.id, p)]
      ensures old(selected).Some? && updated.Success? ==> !showEdit && refreshKey == old(refreshKey) + 1
      ensures updated.Failure? ==> showEdit == old(showEdit) && refreshKey == old(refreshKey)
      ensures selected == old(selected) && showAdd == old(showAdd) && showDelete == old(showDelete)
      ensures showDetails == old(showDetails) && basketRefreshKey == old(basketRefreshKey) && alerts == old(alerts)
    {
      if selected.None? {
        return;
      }
      sent := sent + [UpdateProduct(selected.value.id, p)];
      if updated.Success? {
        showEdit := false;
        refreshKey := refreshKey + 1;
      }
    }

    /**
     * `handleDelete`: without a selection nothing happens. Otherwise the
     * selected product is deleted; once deleted the confirmation closes,
     * the selection is cleared (closing the details dialog too) and the
     * product list refreshes. A rejection changes nothing.
     */
    method HandleDelete(deleted: Result<(), Thrown>)
      modifies this
      ensures KeysNeverDecrease()
      ensures old(selected).None? ==> sent == old(sent) && selected == None && refreshKey == old(refreshKey)
      ensures old(selected).None? ==> showDelete == old(showDelete)
      ensures old(selected).Some? ==> sent == old(sent) + [DeleteProduct(old(selected).value.id)]
      ensures old(selected).Some? && deleted.Success? ==>
        !showDelete && selected == None && !DetailsOpen() && refreshKey == old(refreshKey) + 1
      ensures deleted.Failure? ==>
        showDelete == old(showDelete) && selected == old(selected) && refreshKey == old(refreshKey)
      ensures showAdd == old(showAdd) && showEdit == old(showEdit) && showDetails == old(showDetails)
      ensures basketRefreshKey == old(basketRefreshKey) && alerts == old(alerts)
    {
      if selected.None? {
        return;
      }
      sent := sent + [DeleteProduct(selected.value.id)];
      if deleted.Success? {
        showDelete := false;
        selected := None;
        refreshKey := refreshKey + 1;
      }
    }

    /**
     * `handleAddToBasket`: a product without stock only raises an alert and
     * sends nothing. Otherwise one unit is added; once added the basket
     * refresh key is bumped and the basket panel reloads (`reloaded` is how
     * that read settled); a rejection raises an alert.
     */
    method HandleAddToBasket(product: Product, added: Result<BasketItem, Thrown>,
                             reloaded: Result<seq<BasketItem>, Thrown>)
      modifies this, basket
      ensures KeysNeverDecrease()
      ensures product.stock <= 0 ==>
        sent == old(sent) && alerts == old(alerts) + [OutOfStockAlert]
        && basketRefreshKey == old(basketRefreshKey) && basket.State() == old(basket.State())
      ensures product.stock > 0 ==> sent == old(sent) + [AddToBasket(product.id, 1)]
      ensures product.stock > 0 && added.Success? ==>
        basketRefreshKey == old(basketRefreshKey) + 1 && alerts == old(alerts)
        && basket.State() == Basket.AfterLoad(old(basket.State()), reloaded)
      ensures product.stock > 0 && added.Failure? ==>
        basketRefreshKey == old(basketRefreshKey) && alerts == old(alerts) + AlertsOf(AddFailedAlert(added.error))
        && basket.State() == old(basket.State())
      ensures selected == old(selected) && showAdd == old(showAdd) && showEdit == old(showEdit)
      ensures showDelete == old(showDelete) && showDetails == old(showDetails) && refreshKey == old(refreshKey)
    {
      if product.stock <= 0 {
        alerts := alerts + [OutOfStockAlert];
        return;
      }
      sent := sent + [AddToBasket(product.id, 1)];
      match added {
        case Success(_) =>
          basketRefreshKey := basketRefreshKey + 1;
          basket.LoadBasket(reloaded);
        case Failure(e) =>
          alerts := alerts + AlertsOf(AddFailedAlert(e));
      }
    }
  }
}
