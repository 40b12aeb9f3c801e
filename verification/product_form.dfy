/**
 * The product form used by both the "Add Product" and the "Edit Product"
 * dialogs: its initial values, the validation rules, the field and focus
 * handlers, and the submit gate.
 *
 * Text typed into the price and stock inputs is converted with `Number`;
 * that conversion is a parameter of the change handler here.
 */
module ProductForm {
  import opened Wrappers
  import opened Types
  import opened Text

  /** The four inputs of the form, by their `name` attribute. */
  datatype Field = Name | Price | Description | Stock

  /**
   * The optional `initial` object: the keys it carries, and for each form
   * field its value, `None` when that key is absent or null.
   */
  datatype InitialValues = InitialValues(
    keys: set<string>,
    name: Option<string>,
    price: Option<real>,
    description: Option<string>,
    stock: Option<real>)

  /** A stored product passed as `initial` (the edit dialog passes the selected product). */
  function FromProduct(p: Product): InitialValues
  {
    InitialValues({"id", "name", "price", "description", "stock"},
                  Some(p.name), Some(p.price), p.description, Some(p.stock as real))
  }

  /** The form is in edit mode when it is given an `initial` object that has at least one key. */
  function IsEdit(initial: Option<InitialValues>): bool
  {
    initial.Some? && |initial.value.keys| > 0
  }

  /** The initial value when it is present and not null, the fallback otherwise. */
  function OrElse<T>(v: Option<T>, fallback: T): T
  {
    if v.Some? then v.value else fallback
  }

  /** The form's first values: each given initial value, or the empty default for that field. */
  function InitialForm(initial: Option<InitialValues>): (f: ProductCreate)
    ensures initial.None? ==> f == ProductCreate("", 0.0, "", 0.0)
    ensures initial.Some? && initial.value.name.Some? ==> f.name == initial.value.name.value
    ensures initial.Some? && initial.value.price.Some? ==> f.price == initial.value.price.value
    ensures initial.Some? && initial.value.description.Some? ==> f.description == initial.value.description.value
    ensures initial.Some? && initial.value.stock.Some? ==> f.stock == initial.value.stock.value
    ensures initial.Some? && initial.value.name.None? ==> f.name == ""
    ensures initial.Some? && initial.value.price.None? ==> f.price == 0.0
    ensures initial.Some? && initial.value.description.None? ==> f.description == ""
    ensures initial.Some? && initial.value.stock.None? ==> f.stock == 0.0
  {
    match initial
    case None => ProductCreate("", 0.0, "", 0.0)
    case Some(i) => ProductCreate(OrElse(i.name, ""), OrElse(i.price, 0.0), OrElse(i.description, ""), OrElse(i.stock, 0.0))
  }

  /**
   * The validation errors of a form, keyed by field: a blank name, a price
   * that is not positive, a negative stock. The description is never checked.
   */
  function Errors(f: ProductCreate): (e: map<Field, string>)
    ensures Name in e <==> IsBlank(f.name)
    ensures Price in e <==> f.price <= 0.0
    ensures Stock in e <==> f.stock < 0.0
    ensures Description !in e
    ensures Name in e ==> e[Name] == "Name required"
    ensures Price in e ==> e[Price] == "Price must be > 0"
    ensures Stock in e ==> e[Stock] == "Stock must be >= 0"
  {
    var nameBlank := Trim(f.name) == [];
    assert nameBlank <==> IsBlank(f.name) by { TrimEmptyIffBlank(f.name); }
    var byName: map<Field, string> := if nameBlank then map[Name := "Name required"] else map[];
    var byPrice := if f.price <= 0.0 then byName[Price := "Price must be > 0"] else byName;
    if f.stock < 0.0 then byPrice[Stock := "Stock must be >= 0"] else byPrice
  }

  /** The error record has at least one entry. */
  function HasErrors(f: ProductCreate): (b: bool)
    ensures b <==> IsBlank(f.name) || f.price <= 0.0 || f.stock < 0.0
  {
    var e := Errors(f);
    if Name in e || Price in e || Stock in e then
      assert |e| > 0;
      true
    else
      assert forall k: Field :: k !in e;
      assert e == map[];
      false
  }

  /** The submit button is disabled while submitting or while any error exists. */
  function SubmitDisabled(submitting: bool, f: ProductCreate): (b: bool)
    ensures b <==> submitting || IsBlank(f.name) || f.price <= 0.0 || f.stock < 0.0
  {
    submitting || HasErrors(f)
  }

  /** The submit button's caption: the action when idle, its progressive form while submitting. */
  function SubmitLabel(isEdit: bool, submitting: bool): string
  {
    var submitLabel := if isEdit then "Save Changes" else "Create Product";
    if submitting then (if isEdit then "Saving..." else "Creating...") else submitLabel
  }

  /**
   * The caption tells the user both the mode and whether a submission is
   * under way: two forms show the same caption only when they agree on both.
   */
  lemma SubmitLabelShowsMode(isEdit1: bool, submitting1: bool, isEdit2: bool, submitting2: bool)
    ensures SubmitLabel(isEdit1, submitting1) == SubmitLabel(isEdit2, submitting2)
        <==> isEdit1 == isEdit2 && submitting1 == submitting2
  {
  }

  /** The error message shown under an input: only once the input was touched and only if it has an error. */
  function ShownError(touched: map<Field, bool>, f: ProductCreate, field: Field): Option<string>
  {
    if field in touched && touched[field] && field in Errors(f) then Some(Errors(f)[field]) else None
  }

  /** What an input holds: text, or a number for the numeric inputs. */
  datatype Value = TextValue(text: string) | NumberValue(number: real)

  /** The current value of one input. */
  function FieldValue(f: ProductCreate, field: Field): Value
  {
    match field
    case Name => TextValue(f.name)
    case Price => NumberValue(f.price)
    case Description => TextValue(f.description)
    case Stock => NumberValue(f.stock)
  }

  /**
   * The form after input `field` changed to `text`; `number` is `Number(text)`,
   * which the price and stock inputs store instead of the text.
   */
  function WithField(f: ProductCreate, field: Field, text: string, number: real): (r: ProductCreate)
    ensures FieldValue(r, field) == (if field == Price || field == Stock then NumberValue(number) else TextValue(text))
    ensures forall other :: other != field ==> FieldValue(r, other) == FieldValue(f, other)
  {
    match field
    case Name => f.(name := text)
    case Price => f.(price := number)
    case Description => f.(description := text)
    case Stock => f.(stock := number)
  }

  /** Every input marked as touched, as a submit attempt does. */
  const AllTouched: map<Field, bool> := map[Name := true, Price := true, Description := true, Stock := true]

  /** With every input touched, each input shows exactly its own error, and nothing when it has none. */
  lemma AllTouchedShowsErrors(f: ProductCreate, field: Field)
    ensures ShownError(AllTouched, f, field) == if field in Errors(f) then Some(Errors(f)[field]) else None
  {
    match field
    case Name =>
    case Price =>
    case Description =>
    case Stock =>
  }

  /** A new product's form starts with a blank name and a zero price, so it cannot be submitted. */
  lemma NewProductFormBlocked()
    ensures var f := InitialForm(None);
      Name in Errors(f) && Price in Errors(f) && Stock !in Errors(f)
      && SubmitDisabled(false, f) && SubmitLabel(IsEdit(None), false) == "Create Product"
  {
  }

  /** Opened on a stored product, the form is in edit mode and starts from that product's values. */
  lemma EditFormFromProduct(p: Product)
    ensures IsEdit(Some(FromProduct(p)))
    ensures SubmitLabel(IsEdit(Some(FromProduct(p))), false) == "Save Changes"
    ensures InitialForm(Some(FromProduct(p)))
         == ProductCreate(p.name, p.price, OrElse(p.description, ""), p.stock as real)
  {
  }

  /** The state of one mounted form. */
  class FormController {
    const isEdit: bool
    var form: ProductCreate
    var touched: map<Field, bool>
    var submitting: bool
    /** The payloads passed to `onSubmit`, oldest first. */
    var submitted: seq<ProductCreate>

    constructor (initial: Option<InitialValues>)
      ensures isEdit == IsEdit(initial)
      ensures form == InitialForm(initial) && touched == map[] && !submitting && submitted == []
    {
      isEdit := IsEdit(initial);
      form := InitialForm(initial);
      touched := map[];
      submitting := false;
      submitted := [];
    }

    /** `handleChange`: only the changed input's field is replaced. */
    method HandleChange(field: Field, text: string, number: real)
      modifies this
      ensures form == WithField(old(form), field, text, number)
      ensures touched == old(touched) && submitting == old(submitting) && submitted == old(submitted)
    {
      form := WithField(form, field, text, number);
    }

    /** `handleBlur`: the blurred input becomes touched, the other flags stay. */
    method HandleBlur(field: Field)
      modifies this
      ensures touched == old(touched)[field := true]
      ensures form == old(form) && submitting == old(submitting) && submitted == old(submitted)
    {
      touched := touched[field := true];
    }

    /**
     * `handleSubmit`: marks every input touched; with any error it stops
     * there, otherwise it sets `submitting` and calls `onSubmit` once with
     * the current form.
     */
    method HandleSubmit()
      modifies this
      ensures touched == AllTouched && form == old(form)
      ensures HasErrors(form) ==> submitting == old(submitting) && submitted == old(submitted)
      ensures !HasErrors(form) ==> submitting && submitted == old(submitted) + [form]
      ensures forall field :: field in Errors(form) ==> ShownError(touched, form, field) == Some(Errors(form)[field])
      ensures forall field :: field !in Errors(form) ==> ShownError(touched, form, field) == None
    {
      touched := AllTouched;
      forall field: Field
        ensures ShownError(touched, form, field) == if field in Errors(form) then Some(Errors(form)[field]) else None
      {
        AllTouchedShowsErrors(form, field);
      }
      if |Errors(form)| > 0 {
        return;
      }
      submitting := true;
      submitted := submitted + [form];
    }
  }
}
