# Product catalogue and basket: a Dafny model

This project models the behavioural core of a small product catalogue. It has a browser client (React) and a product service (FastAPI). Four parts are modelled:

- **The basket panel** (`05_design/src/components/Basket.tsx`). It keeps three pieces of state: the basket lines, a loading flag and an error message. Its handlers load the basket, change a line's quantity, remove a line and clear the basket. It also classifies a rejected quantity update, and derives the item count and the basket value from the lines. `basket.dfy` gives every handler as a pure transition of a `BasketView` (`AfterLoad`, `AfterRemove`, `AfterClear`, `AfterQuantityChange`). The class `BasketController` has the same fields as the component, and each of its methods ends in exactly the state that the matching transition gives.
- **The page controller** (`05_design/src/App.tsx`). It holds the selected product, the four dialog flags and the two refresh keys. Its handlers create, update and delete products and add a product to the basket. A successful add to the basket bumps the basket's refresh key, and that bump is modelled as one basket reload. This is `app.dfy`.
- **The product form** (`05_design/src/components/ProductForm.tsx`). This covers its initial values, its validation rules, the change, blur and submit handlers, the submit button's label, and when that button is disabled. This is `product_form.dfy`.
- **The product endpoints** (`03_python_fastapi_project/main.py`). These are create, list, get, partial update and delete over a product table, which is modelled as a map from id to product. This is `product_store.dfy`.

Every remote call is a parameter of the handler that makes it. The parameter is a `Result` saying whether the call resolved (and with what) or was rejected (and with what). The client keeps logs of the calls it issued (`sent`) and the alerts it showed (`alerts`). With these logs the contracts can say "no update request is sent" or "the basket is re-read". `text.dfy` models JavaScript's `includes` and `trim`. The classification and the form validation depend on them.

Behaviour of the code worth noting:

- A failed basket read keeps the lines that were shown before. It does not empty the basket (`Basket.tsx:44-45`).
- A rejected remove or clear sets the error and does not re-read the basket (`Basket.tsx:87-89`, `97-99`).
- The message chosen for a rejected quantity update never survives. The re-read that follows it either clears the error or replaces it with the read's own failure message (`Basket.tsx:76-78` with `43-45`). The lemma `Basket.ClassificationIsOverwritten` states this.
- The specific update messages apply only when the rejection's message contains "400" (`Basket.tsx:69`).
- An accepted quantity update whose re-read fails leaves the old lines on screen with no error. The `setError(null)` that follows the re-read (`Basket.tsx:65`) erases the read's failure message (`Basket.tsx:45`). The lemma `Basket.AcceptedUpdateHidesReadFailure` states this.
- The `onBasketUpdate` callback is never passed by the page (`App.tsx:144`). So a basket change does not bump any refresh key.
- Adding an out-of-stock product raises a browser alert and sends nothing (`App.tsx:43-46`).

## Model

| member | source | states |
|---|---|---|
| `Text.Includes` | 05_design/src/components/Basket.tsx:69-72 | `includes` is true exactly when the searched text occurs at some index of the message. This is proved against an independent definition of "occurs at". |
| `Text.Trim` | 05_design/src/components/ProductForm.tsx:23 | `trim` returns a contiguous part of the name. Everything before and after that part is JavaScript whitespace or line terminators, and the part itself neither starts nor ends with such a character. |
| `Text.TrimEmptyIffBlank` | 05_design/src/components/ProductForm.tsx:23 | The trimmed name is empty exactly when every character of the name is whitespace (this includes the empty name). |
| `Basket.ClassifyUpdateError` | 05_design/src/components/Basket.tsx:66-75 | Classification is total and yields exactly one of three messages. "Insufficient stock available" is chosen iff the rejection is an `Error` whose message contains "400", "Only" and "available". "Stock limit exceeded" is chosen iff it has "400" and "Cannot set quantity" but not both "Only" and "available". Everything else, including every message without "400", gets "Failed to update item". |
| `Basket.ClassifyStockMessage` | 05_design/src/components/Basket.tsx:69-71 | A concrete rejection "400: Only 2 available" is classified as insufficient stock. |
| `Basket.ClassifyNonError` | 05_design/src/components/Basket.tsx:68-69 | A thrown value that is not an `Error` always gets the generic update message. This holds even for an object with a `message` property, and for `null`. |
| `Basket.TotalItems` | 05_design/src/components/Basket.tsx:102 | The heading's count, a left fold from 0, equals the sum of all line quantities as an independent right-fold sum. So an empty basket counts 0. |
| `Basket.TotalValue` | 05_design/src/components/Basket.tsx:103 | The total, a left fold from 0, equals the sum over all lines of price times quantity as an independent right-fold sum. So an empty basket is worth 0. |
| `Basket.TotalItemsAppend` | 05_design/src/components/Basket.tsx:102 | The count of two runs of lines is the sum of their counts. |
| `Basket.TotalValueAppend` | 05_design/src/components/Basket.tsx:103 | The value of two runs of lines is the sum of their values. |
| `Basket.TotalsWithoutLine` | 05_design/src/components/Basket.tsx:102-103 | Dropping one line lowers the count by exactly its quantity. It lowers the value by exactly its price times its quantity. |
| `Basket.TotalItemsAtLeastLines` | 05_design/src/components/Basket.tsx:102 | When every quantity is at least 1, the count is at least the number of lines. The count is 0 only for an empty basket. |
| `Basket.AfterLoad` | 05_design/src/components/Basket.tsx:38-49 | A read always issues one basket fetch and always ends with loading off. On success the lines become exactly the fetched list and the error is cleared. On failure the lines stay as they were. The error is then the `Error`'s own message, or "Failed to load basket" for any other thrown value. |
| `Basket.AfterRemove` | 05_design/src/components/Basket.tsx:82-90 | An accepted delete is followed by exactly one re-read, and the lines and error come from that re-read. A rejected delete issues no re-read and keeps the lines and the loading flag. It sets the error to the `Error`'s message, or "Failed to remove item" for any other thrown value. |
| `Basket.AfterClear` | 05_design/src/components/Basket.tsx:92-100 | The same protocol as removal, for the whole basket. A rejection that is not an `Error` reports "Failed to clear basket". |
| `Basket.AfterQuantityChange` | 05_design/src/components/Basket.tsx:55-80 | A quantity of 0 or less is exactly a removal of that line, so no update request is sent. A positive quantity sends exactly one update for that line and quantity, then one re-read. The shown lines then come from the re-read, never from the requested quantity. After an accepted update the error is cleared. After a rejected one the error is whatever the re-read left. |
| `Basket.HandlersKeepUpdatesPositive` | 05_design/src/components/Basket.tsx:56-62 | Invariant of every handler: no update request in the log ever asks for a quantity below 1. |
| `Basket.LinesComeFromServer` | 05_design/src/components/Basket.tsx:61-79 | After any handler, the lines shown are either the lines shown before or the list the server returned. |
| `Basket.DecrementOfSingleIsRemoval` | 05_design/src/components/Basket.tsx:55-59 | The minus control on a line of quantity 1 ends in the same state, with the same requests, as that line's trash control. |
| `Basket.ClassificationIsOverwritten` | 05_design/src/components/Basket.tsx:76-78 | After a rejected update, the final state does not depend on how the rejection was classified. If the re-read succeeds, the final error is null. |
| `Basket.AcceptedUpdateHidesReadFailure` | 05_design/src/components/Basket.tsx:61-65 | After an accepted update whose re-read fails, the old lines stay on screen with no error, although the same failed read on its own would report one. |
| `Basket.RejectedIncrementKeepsServerQuantity` | 05_design/src/components/Basket.tsx:150-151 | Take a line of quantity 2 whose increment is rejected with "Only 2 available". It still shows quantity 2 from the server's list, with no error left. |
| `Basket.ClearEmptyBasket` | 05_design/src/components/Basket.tsx:92-100 | Clearing an empty basket that the server confirms empty leaves it empty, with no error and no "Clear All" button. |
| `Basket.ClearAllAfterRead` | 05_design/src/components/Basket.tsx:104-124 | Once a read has settled, "Clear All" is offered exactly when the shown basket is non-empty. After a successful read that is the server's list, and after a failed one the lines shown before. This holds after a load, an accepted remove or clear, and any positive quantity change. |
| `Basket.ClearAllMeansItems` | 05_design/src/components/Basket.tsx:104-124 | Whenever "Clear All" is offered over lines of at least one unit each, the heading counts at least one item. |
| `Basket.BasketController.constructor` | 05_design/src/components/Basket.tsx:34-36 | A mounted panel starts with no lines, loading on, no error and no requests. |
| `Basket.BasketController.LoadBasket` | 05_design/src/components/Basket.tsx:38-49 | Step by step, it ends in exactly the state `AfterLoad` gives. |
| `Basket.BasketController.HandleRemoveItem` | 05_design/src/components/Basket.tsx:82-90 | It ends in exactly the state `AfterRemove` gives. |
| `Basket.BasketController.HandleClearBasket` | 05_design/src/components/Basket.tsx:92-100 | It ends in exactly the state `AfterClear` gives. |
| `Basket.BasketController.HandleQuantityChange` | 05_design/src/components/Basket.tsx:55-80 | It ends in exactly the state `AfterQuantityChange` gives. |
| `Basket.BasketController.Decrement` | 05_design/src/components/Basket.tsx:144 | The minus control requests exactly the line's quantity minus 1 for that line's id. |
| `Basket.BasketController.Increment` | 05_design/src/components/Basket.tsx:151 | The plus control requests exactly the line's quantity plus 1 for that line's id. |
| `App.AppController.constructor` | 05_design/src/App.tsx:10-16 | Nothing is selected, every dialog is closed, both refresh keys are 0, and the basket panel is fresh. |
| `App.AddFailedAlert` | 05_design/src/App.tsx:50-52 | A rejected add raises an alert made of the fixed prefix followed by the `message` property: an `Error`'s message, another object's own message, or "undefined" when there is none. A `null` or `undefined` rejection makes the handler itself throw, so no alert is raised. |
| `App.AppController.EditFormInitial` | 05_design/src/App.tsx:118 | The edit form gets initial values exactly when a product is selected, and is in edit mode exactly then. It then starts from the selected product's name, price, description ('' when missing) and stock. Its idle caption is "Save Changes" exactly when a product is selected. Without a selection it is an empty creation form. |
| `App.AppController.OpenAdd` | 05_design/src/App.tsx:60 | Opens the add dialog and changes nothing else. |
| `App.AppController.ViewProduct` | 05_design/src/App.tsx:74-75 | Selects the product and opens its details, so the details dialog is open. Nothing else changes. |
| `App.AppController.EditProduct` | 05_design/src/App.tsx:76 | Selects the product and opens the edit dialog. Nothing else changes. |
| `App.AppController.ConfirmDelete` | 05_design/src/App.tsx:77 | Selects the product and opens the delete confirmation. Nothing else changes. |
| `App.AppController.CloseDialogs` | 05_design/src/App.tsx:81-137 | The close, backdrop and cancel controls clear only the flags of the dialogs they close. |
| `App.AppController.HandleAdded` | 05_design/src/App.tsx:18-23 | Sends exactly one create with the form's payload. Once created, the add dialog closes and the refresh key rises by exactly 1. A rejection changes nothing, because there is no catch. Neither refresh key decreases. |
| `App.AppController.HandleUpdated` | 05_design/src/App.tsx:25-31 | Without a selection it sends nothing and changes nothing. Otherwise it sends exactly one update for the selected id. Once updated, the edit dialog closes and the refresh key rises by 1. A rejection changes nothing. |
| `App.AppController.HandleDelete` | 05_design/src/App.tsx:33-40 | Without a selection it sends nothing and changes nothing. Otherwise it sends exactly one delete for the selected id. Once deleted, the confirmation closes, the selection is cleared (so the details dialog is closed) and the refresh key rises by 1. A rejection changes nothing. |
| `App.AppController.HandleAddToBasket` | 05_design/src/App.tsx:42-53 | With stock 0 or less it sends nothing, raises the out-of-stock alert and leaves the basket key and the basket untouched. Otherwise it sends exactly `{product_id, quantity: 1}`. Success raises the basket key by exactly 1 and reloads the basket. Failure appends the alert `AddFailedAlert` gives, if any, and leaves the key and the basket unchanged. |
| `ProductForm.InitialForm` | 05_design/src/components/ProductForm.tsx:13-18 | Each field starts from the given initial value. A field that is absent or null falls back to its empty default ('' for text, 0 for numbers), whether or not an `initial` object is given. Without `initial` the form is `{name: '', price: 0, description: '', stock: 0}`. |
| `ProductForm.Errors` | 05_design/src/components/ProductForm.tsx:22-25 | There is a name error iff the name is blank after trimming, a price error iff the price is not positive, and a stock error iff the stock is negative. The description is never in error. Each error carries its fixed message. |
| `ProductForm.HasErrors` | 05_design/src/components/ProductForm.tsx:37 | The error record is non-empty iff one of the three rules is broken. |
| `ProductForm.SubmitDisabled` | 05_design/src/components/ProductForm.tsx:84 | The submit button is disabled iff a submission is under way or one of the three rules is broken. |
| `ProductForm.SubmitLabelShowsMode` | 05_design/src/components/ProductForm.tsx:85 | The caption tells edit mode and submission progress apart: two forms show the same caption only when they agree on both. |
| `ProductForm.AllTouchedShowsErrors` | 05_design/src/components/ProductForm.tsx:61-72 | Once every input is touched, each input shows exactly its own error message and an input without an error shows nothing. The description never shows one. |
| `ProductForm.WithField` | 05_design/src/components/ProductForm.tsx:27-30 | A change replaces only the named field. The price and stock inputs store the converted number and the others store the text. Every other field keeps its value. |
| `ProductForm.NewProductFormBlocked` | 05_design/src/components/ProductForm.tsx:13-18 | A new-product form starts with a name error and a price error but no stock error. Its submit button is disabled and reads "Create Product". |
| `ProductForm.EditFormFromProduct` | 05_design/src/components/ProductForm.tsx:12-18 | A form opened on a stored product is in edit mode, reads "Save Changes", and starts from that product's values, with a missing description becoming ''. |
| `ProductForm.FormController.constructor` | 05_design/src/components/ProductForm.tsx:11-20 | A mounted form starts from `InitialForm`, with nothing touched, not submitting and nothing submitted. |
| `ProductForm.FormController.HandleChange` | 05_design/src/components/ProductForm.tsx:27-30 | The form becomes `WithField` of the old form. The touched flags and the submission state are unchanged. |
| `ProductForm.FormController.HandleBlur` | 05_design/src/components/ProductForm.tsx:31-33 | Marks only the blurred input touched and keeps every other touched flag. |
| `ProductForm.FormController.HandleSubmit` | 05_design/src/components/ProductForm.tsx:34-40 | All four inputs become touched. Afterwards every input shows exactly its own error message, and an input without an error shows nothing. With any error `onSubmit` is not called and `submitting` is unchanged. Without errors `onSubmit` is called exactly once with the current form and `submitting` becomes true. |
| `ProductStore.Patched` | 03_python_fastapi_project/main.py:96-99 | A partial update keeps the id. Each field given in the request takes the new value, and each omitted field keeps its old value. |
| `ProductStore.UpdateDataInOrder` | 03_python_fastapi_project/main.py:96 | The fields an update sets are exactly those the request gives, with the values given, each once, in the order the update model declares them. |
| `ProductStore.UpdateDataPatches` | 03_python_fastapi_project/main.py:96-99 | Setting the given fields one by one, in the update model's declaration order, yields exactly the field-wise patch. |
| `ProductStore.ProductTable.constructor` | 03_python_fastapi_project/main.py:39-42 | At start-up the table holds the rows the database already has (none on a first start), each under its own id. |
| `ProductStore.ProductTable.CreateProducts` | 03_python_fastapi_project/main.py:63-74 | Stores and returns a row with exactly the given name, price, description and stock under the new id. No other row changes. |
| `ProductStore.ProductTable.GetProducts` | 03_python_fastapi_project/main.py:77-81 | Returns every stored row, each exactly once, and nothing that is not stored. |
| `ProductStore.ProductTable.GetProductById` | 03_python_fastapi_project/main.py:119-126 | Returns the stored row, or 404 "Product not found" when the id is absent. It changes nothing. |
| `ProductStore.ProductTable.UpdateProduct` | 03_python_fastapi_project/main.py:84-104 | An unknown id gives 404 "Product not found" and leaves the table unchanged. Otherwise the row becomes the field-wise patch, no other row changes, and the patched row is returned. |
| `ProductStore.ProductTable.DeleteProduct` | 03_python_fastapi_project/main.py:107-116 | It succeeds iff the id is stored, and gives 404 "Product not found" otherwise. Only that row is removed. |

## Left out

- Network I/O: the `fetch` wrappers in `05_design/src/api.ts` are left out. The basket request functions the panel imports are not part of this model. Every remote call is a `Result` parameter, and the client records the call in its request log.
- Rendering: the JSX markup, the icons, the `toFixed` price formatting and the heading text are left out. The product list components, `Modal.tsx` and the styling configuration are left out too. Only the open/closed conditions and the button visibility, label and disabled state are modelled.
- `alert`: it is recorded as the text appended to `alerts`. Its blocking behaviour is not modelled.
- `App.AddFailedAlert`: a `message` property that is not a string is modelled as a string. JavaScript would convert it to text before joining it to the prefix. The uncaught error that a `null` rejection raises inside the handler is not modelled beyond the missing alert.
- Number parsing: `Number(value)` in the change handler is a parameter (`number`). The model does not capture NaN, so JavaScript numbers are exact reals that are never NaN.
- Floating point: prices are exact reals. Rounding in `price * quantity` and in the running sums is not modelled.
- Concurrency: overlapping requests, React's batching of state updates and the timing of `useEffect` are not modelled. Each handler runs to completion on its own, and a change of the basket's refresh key is one `LoadBasket` call. The loading screen shown while the re-read is pending is not modelled.
- The page's search input has no handler and is not modelled. The product list's own remount on `refreshKey` is not modelled either, because its components are not part of this model.
- `onBasketUpdate` is never supplied by the page, so its optional calls are no-ops and are omitted.
- `ProductForm.InitialValues`: the set of keys is kept apart from the field values, and nothing ties the two together. So the model also admits objects no JavaScript value could be, such as no keys but a name. `ProductForm.FromProduct` always lists the key "description". A product whose JSON leaves out that key would have one key fewer, but that makes no difference to edit mode or to the initial values.
- Database and framework: sessions, commits and refreshes are left out. So are CORS, the welcome endpoint and `uvicorn`. The startup hook only creates missing tables. `ProductStore.ProductTable.constructor` models it as keeping the rows already stored. New ids come from the database and are a parameter here. Request validation by the framework (type coercion, 422 responses) is left out.
- `ProductStore.ProductUpdate`: an explicit `null` for name, price or stock (which `exclude_unset` would still apply) is not modelled. Whether the table accepts it depends on column definitions that are not part of this model. An explicit `null` for the description is modelled.
- `ProductStore.ProductTable.GetProducts`: the order of the returned rows is left open, because the query has no ordering.
