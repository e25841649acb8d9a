# SK_Bags storefront — a Dafny model of its cart, checkout and catalogue logic

SK_Bags is a small online shop for handbags: a React storefront and admin panel talking to a
FastAPI backend. This project models the parts of it that carry logic, and proves what they
promise:

- **The storefront cart** (`Cart`): add, remove, update quantity, total price and item count
  over an ordered list of line items keyed by product id. It proves the invariant (unique ids,
  quantities of at least one) across every sequence of user actions.
- **Order submission** (`Checkout`): `handleCheckout` as a class over the cart, the checkout
  form and the re-entrancy flag. The state machine — guard, ordered prechecks, reading of the
  server's answer, re-classification of error texts, clean-up only on confirmed success — is
  also given as a function, and the method is proved against it.
- **The older storefront component** (`LegacyApp`): it removes a line only on a quantity of
  exactly zero and accepts any non-null server answer. Lemmas state exactly where it differs
  from the newer component.
- **The checkout dialog** (`CheckoutDialog`): its result screens, its own success test and
  error texts. Composed with `handleCheckout`, it shows success exactly when the checkout
  returned.
- **The product gallery and card** (`ProductGallery`, `ProductCardView`): the image list,
  modular next/previous stepping with its busy guards, the swipe gesture, the card's cover
  image, image count, stock label and disabled rule.
- **The admin panel's helpers** (`AdminPanel`): product lookup, order-item name precedence,
  the "first three and N more" summary, detail defaults, piece counts and in-place edits of a
  product's image list.
- **The request layer** (`ApiClient`): endpoint cleaning, headers, error-message choice, the
  delete-error remapping, the two-endpoint upload fallback, the product body `createProduct`
  posts (related by a lemma to the server's validation) and the health probe (related to the
  server's `/health` answer).
- **The backend**:
  - URL normalisation of product media (`Media`);
  - `/api` prefix rewriting and the SPA catch-all (`Routing`);
  - the validators and the order-status enum (`Models`);
  - catalogue filtering, pagination, search, the category list and dashboard counts
    (`Catalogue`);
  - order creation with its stock checks, pricing and stock decrement (`Orders`).

Prices are integers in minor units. JavaScript's falsy strings and numbers are `Option` values
read through `JsValues.TruthyStr`/`TruthyNum`. React state updates are immediate assignments.
Connectivity, the stored token, network replies and database results are parameters.

`limit` in `get_products` and `search_products` has no lower bound. A negative limit therefore
drops rows from the end of the list rather than returning none. `Catalogue.NegativeLimitPage`
and `Catalogue.SearchSpec` state this.

## Model

| member | source | states |
|---|---|---|
| Cart.SumsAppend | frontend/src/MainApp.js:135-137 | total price and item count split over a concatenation of carts |
| Cart.SumsReplace | frontend/src/MainApp.js:135-137 | replacing one line changes the total and the count by exactly that line's difference |
| Cart.EmptyCartSums | frontend/src/MainApp.js:135-137 | the empty cart totals 0 and counts 0 |
| Cart.AddExisting | frontend/src/MainApp.js:101-109 | adding a product already on line k increments only line k; length and order unchanged |
| Cart.AddNew | frontend/src/MainApp.js:110-111 | adding a new product appends `{...product, quantity: 1}`; length grows by one |
| Cart.AddKeepsValid | frontend/src/MainApp.js:101-114 | after adding, the product is in the cart and ids stay unique with quantities ≥ 1 |
| Cart.AddExistingTotal | frontend/src/MainApp.js:101-109 | adding an existing product raises the total by the unit price stored on its line |
| Cart.TotalAfterIncrementAt | frontend/src/MainApp.js:135-137 | one more unit on line k raises the total by that line's unit price |
| Cart.IncrementAt | frontend/src/MainApp.js:105-109 | with unique ids the increment map touches exactly the matching line |
| Cart.AddCount | frontend/src/MainApp.js:101-114 | adding raises the item count by exactly one |
| Cart.LineTotalIncrement | frontend/src/MainApp.js:136 | one more unit adds the unit price to the line total |
| Cart.AddNewTotal | frontend/src/MainApp.js:110-111 | adding a new product raises the total by its price |
| Cart.RemoveKeepsOthers | frontend/src/MainApp.js:131-133 | removal keeps exactly the lines with another id; the id is gone |
| Cart.RemoveAbsent | frontend/src/MainApp.js:131-133 | removing an absent id leaves the cart unchanged |
| Cart.RemoveAt | frontend/src/MainApp.js:131-133 | with unique ids, removal drops exactly position k and keeps the rest in order |
| Cart.RemoveSums | frontend/src/MainApp.js:131-137 | removal lowers the total by the line's price × quantity and the count by its quantity |
| Cart.RemoveKeepsValid | frontend/src/MainApp.js:131-133 | removal keeps the cart invariant |
| Cart.UpdateNonPositiveRemoves | frontend/src/MainApp.js:116-120 | a quantity ≤ 0 is exactly `removeFromCart` |
| Cart.UpdatePositive | frontend/src/MainApp.js:122-128 | a positive quantity replaces only the matching line's quantity; absent id changes nothing |
| Cart.UpdateKeepsValid | frontend/src/MainApp.js:116-129 | every update, whatever the quantity, keeps the cart invariant |
| Cart.ActionsKeepValid | frontend/src/MainApp.js:101-133 | every sequence of add, remove and update actions keeps the invariant |
| Checkout.OrderLines | frontend/src/MainApp.js:176-181 | the order has one item per cart line |
| Checkout.OrderMatchesCart | frontend/src/MainApp.js:174-184 | each item carries its line's id, quantity and price, and `total_amount` is their Σ price×qty, equal to the cart total |
| Checkout.ReturnsIffConfirmed | frontend/src/MainApp.js:139-266 | `handleCheckout` returns exactly when not already submitting, all prechecks pass and the server's answer is confirmed |
| Checkout.PrecheckOrder | frontend/src/MainApp.js:158-173 | prechecks run offline, then empty cart, then a missing field (no trimming); passing means all three hold |
| Checkout.ExplicitFailureWins | frontend/src/MainApp.js:200-203 | `success === false` fails with the server's message or the default, even with an id |
| Checkout.ErrorMessageCategories | frontend/src/MainApp.js:235-258 | re-classification in order: "fetch"/"NetworkError", then "500", then "400"/"422", then "401"/"403", else verbatim; an empty message gives the default; never empty |
| Checkout.Storefront.constructor | frontend/src/MainApp.js:13-21 | empty cart, empty form, not submitting |
| Checkout.Storefront.HandleCheckout | frontend/src/MainApp.js:139-266 | outcome as specified; a request is sent iff not submitting and prechecks pass; cart and form untouched on every thrown path, cleared on success; the flag is back to its old value |
| LegacyApp.SetAbsent | frontend/app.js:122-126 | setting the quantity of an absent product changes nothing |
| LegacyApp.VariantsDifferOnlyOnNegative | frontend/app.js:118-128 | the older and newer updates differ exactly for a negative quantity on a product in the cart |
| LegacyApp.LegacyStoresNegative | frontend/app.js:118-128 | a negative quantity is stored, breaking the positive-quantity invariant |
| LegacyApp.LegacyNegativeCount | frontend/app.js:130-132 | with a stored negative quantity, count and total change by that line's difference, taking the negative quantity in |
| LegacyApp.LegacyOrderFor | frontend/app.js:151-161 | one order line per cart line |
| LegacyApp.LegacyOrderAgrees | frontend/app.js:151-161 | the older body's lines and total equal the newer body's |
| LegacyApp.LegacyAcceptsConfirmed | frontend/app.js:164-169 | every answer the newer checkout confirms, the older one confirms too |
| LegacyApp.LegacyAcceptsExplicitFailure | frontend/app.js:164-169 | an answer with `success === false` is a failure for the newer checkout but a success alert for the older |
| LegacyApp.LegacyStore.constructor | frontend/app.js:12-22 | empty cart and form, both panels closed |
| LegacyApp.LegacyStore.AddToCart | frontend/app.js:101-112 | the same update as the newer storefront; nothing else changes |
| LegacyApp.LegacyStore.RemoveFromCart | frontend/app.js:114-116 | the same filter as the newer storefront; nothing else changes |
| LegacyApp.LegacyStore.UpdateQuantity | frontend/app.js:118-128 | only exactly 0 removes; nothing else changes |
| LegacyApp.LegacyStore.HandleCheckout | frontend/app.js:134-138 | an empty cart does nothing; otherwise checkout opens and the cart panel closes |
| LegacyApp.LegacyStore.HandleOrderSubmit | frontend/app.js:140-174 | fields are checked before the cart; a request is sent iff both pass; success clears cart, form and checkout panel; failure changes nothing |
| CheckoutDialog.DialogErrorCategories | frontend/src/components/CheckoutModal.js:24-38 | the dialog's error text: default for no message, offline or network words, then 500, else verbatim; never empty |
| CheckoutDialog.ScreenPrecedence | frontend/src/components/CheckoutModal.js:61-137 | success screen, then failure, then loading, then form, each exactly in its case |
| CheckoutDialog.SuccessIffCheckoutReturned | frontend/src/components/CheckoutModal.js:18-22 | the dialog's success test holds exactly when `handleCheckout` returned |
| CheckoutDialog.Dialog.constructor | frontend/src/components/CheckoutModal.js:5-7 | no result, not loading, no message |
| CheckoutDialog.Dialog.BeginSubmit | frontend/src/components/CheckoutModal.js:11-14 | loading on, message cleared, no result; the loading screen shows |
| CheckoutDialog.Dialog.FinishSubmit | frontend/src/components/CheckoutModal.js:16-44 | success or failure by the dialog's test, failure text mapped; loading off |
| CheckoutDialog.Dialog.HandleSubmit | frontend/src/components/CheckoutModal.js:9-45 | begin then finish: result and message as the outcome says, loading off |
| CheckoutDialog.Dialog.ResetAndTryAgain | frontend/src/components/CheckoutModal.js:47-51 | back to the form with no result, no message, not loading; `onClose` not called |
| CheckoutDialog.Dialog.CloseModal | frontend/src/components/CheckoutModal.js:53-58 | the same reset, and `onClose` called once |
| CheckoutDialog.SubmitThroughDialog | frontend/src/components/CheckoutModal.js:9-45 | composed with `handleCheckout`: success screen iff it returned; cart cleared on success, untouched on failure |
| ProductGallery.KeptEntriesMembers | frontend/src/components/ProductModal.js:16-23 | an entry is kept iff it is truthy and differs from `image_url` |
| ProductGallery.AllImagesShape | frontend/src/components/ProductModal.js:8-31 | never empty, no empty entries, `image_url` first when present and never repeated, the placeholder alone when nothing is usable |
| ProductGallery.GetAllImages | frontend/src/components/ProductModal.js:8-31 | the push loop builds exactly the specified list |
| ProductGallery.StepsAreInverse | frontend/src/components/ProductModal.js:94-112 | next and previous stay in [0, n) and undo each other |
| ProductGallery.Carousel.constructor | frontend/src/components/ProductModal.js:33-43 | index 0 over the gallery's images, idle, autoplay off |
| ProductGallery.Carousel.NextImage | frontend/src/components/ProductModal.js:86-102 | no-op while animating or dragging; otherwise index (i+1) mod n and animating |
| ProductGallery.Carousel.PrevImage | frontend/src/components/ProductModal.js:104-120 | no-op while animating or dragging; otherwise index (i-1+n) mod n and animating |
| ProductGallery.Carousel.GoToImage | frontend/src/components/ProductModal.js:122-140 | no-op while busy or for the current index; otherwise jumps there and animates; the drag state and autoplay are kept |
| ProductGallery.Carousel.AnimationDone | frontend/src/components/ProductModal.js:96-101 | the animation timer clears the busy flag only; index, drag state and autoplay are kept |
| ProductGallery.Carousel.TouchStart | frontend/src/components/ProductModal.js:142-152 | ignored with ≤ 1 image or while animating; otherwise starts dragging and stops autoplay |
| ProductGallery.Carousel.TouchMove | frontend/src/components/ProductModal.js:154-168 | the offset follows the finger only while dragging and the vertical drift is < 50 |
| ProductGallery.Carousel.TouchEnd | frontend/src/components/ProductModal.js:170-186 | as written: dragging ends and the offset resets, but the index and the animating flag never change; autoplay and the drag start are kept |
| ProductGallery.Carousel.TouchEndIntended | frontend/src/components/ProductModal.js:170-186 | corrected: a swipe beyond 80 goes to the previous (positive) or next (negative) image and starts the animation, unless one is already running, which keeps the index; autoplay and the drag start are kept |
| ProductGallery.SwipeCounterexample | frontend/src/components/ProductModal.js:170-186 | a 100-pixel left swipe on a three-image product: as written index 0, intended 1 |
| ProductCardView.KeptEntriesCons | frontend/src/components/ProductCard.js:25-34 | unfolds the gallery's kept entries one element at a time |
| ProductCardView.MainImageIsGalleryCover | frontend/src/components/ProductCard.js:9-22 | the card's main image is the gallery's first image whenever the first entry is usable |
| ProductCardView.CountMatchesKept | frontend/src/components/ProductCard.js:29-32 | with only truthy entries the card counts exactly the gallery's kept entries |
| ProductCardView.CountMatchesGallery | frontend/src/components/ProductCard.js:25-34 | with truthy entries and a non-zero count, the card's count is the gallery's length |
| ProductCardView.FalsyEntryOvercounts | frontend/src/components/ProductCard.js:29-32 | an empty entry is counted by the card though the gallery drops it, so the badge shows for a one-image gallery |
| ProductCardView.StockLabelCases | frontend/src/components/ProductCard.js:80-87 | a label iff stock ≤ 5; "Out of Stock" iff 0; otherwise "Only n left" |
| ProductCardView.DisabledIffOutOfStock | frontend/src/components/ProductCard.js:115 | add-to-cart is disabled iff the label is "Out of Stock" |
| AdminPanel.GetProductById | frontend/src/components/AdminPanel.js:215-217 | a found product has the id; none iff no product has it |
| AdminPanel.GetProductByIdFirst | frontend/src/components/AdminPanel.js:215-217 | the first product with the id is returned |
| AdminPanel.NamePrecedence | frontend/src/components/AdminPanel.js:222-235 | `name`, then `product_name`, then `product.name`, then lookup by `product_id`, then by `id`, then the label; never empty |
| AdminPanel.FallbackLabel | frontend/src/components/AdminPanel.js:222-235 | when the item names nothing and neither `product_id` nor `id` finds a named catalogue product, the label is "منتج #" + `product_id`, else `id`, else "غير محدد" |
| AdminPanel.ItemNames | frontend/src/components/AdminPanel.js:221-236 | one name per item |
| AdminPanel.NoItemsNoProducts | frontend/src/components/AdminPanel.js:220 | missing or empty items give "لا توجد منتجات" |
| AdminPanel.FewNamesAllShown | frontend/src/components/AdminPanel.js:242 | with 1 to 3 items every name appears in the summary |
| AdminPanel.ManyNamesTruncated | frontend/src/components/AdminPanel.js:238-240 | with more than 3 items the first three appear, followed by " + (n-3) أخرى" |
| AdminPanel.JoinContainsParts | frontend/src/components/AdminPanel.js:239-242 | every part appears in the joined text |
| AdminPanel.EnhancedDefaults | frontend/src/components/AdminPanel.js:245-290 | quantity defaults to 1; `item.price` wins over the catalogue; with no price from the item, its nested product or the catalogue the price is 0; with no category the category is "غير محدد"; the name is the one the summary shows |
| AdminPanel.PiecesOfSubmittedCart | frontend/src/components/AdminPanel.js:907 | the pieces total of an order submitted from a cart is the cart's item count |
| AdminPanel.WithoutIndexSplices | frontend/src/components/AdminPanel.js:145-150 | filtering out index k splices it out; an out-of-range k changes nothing |
| AdminPanel.ProductForm.constructor | frontend/src/components/AdminPanel.js:25-35 | empty image list and selection, not uploading |
| AdminPanel.ProductForm.RemoveImage | frontend/src/components/AdminPanel.js:145-150 | removes exactly index k, keeps the rest in order |
| AdminPanel.ProductForm.AddImageUrl | frontend/src/components/AdminPanel.js:152-160 | appends the trimmed URL only when it is non-blank |
| AdminPanel.ProductForm.HandleMultipleFileUpload | frontend/src/components/AdminPanel.js:112-143 | no selection does nothing; all uploads succeeding appends their URLs in order and clears the selection; any failure changes no list |
| Routing.RewriteCases | backend/main.py:53-61 | `/api` becomes `/`, `/api/x` becomes `/x`, every other path is unchanged (iff) |
| Routing.RewriteKeepsLeadingSlash | backend/main.py:53-61 | a rooted path stays rooted |
| Routing.SpaRefusesApiPrefixes | backend/main.py:579-591 | any path starting with one of the 14 API names is refused; the app is served iff none is a prefix |
| ApiClient.CleanEndpointCases | frontend/src/services/api.js:14 | `/api` + rest becomes rest (so `/apix` becomes `x`); other endpoints unchanged |
| ApiClient.ClientAndServerPrefixes | frontend/src/services/api.js:14 | client and server agree on `/api/x` and disagree on `/api` and `/apix` |
| ApiClient.AuthorizationIffToken | frontend/src/services/api.js:16-23 | Authorization is present iff a token exists, as `Bearer <token>`; Content-Type always |
| ApiClient.CallerHeadersDropToken | frontend/src/services/api.js:16-23 | as written, caller headers replace the merged ones and lose the token; the corrected merge keeps it |
| ApiClient.ErrorMessagePrecedence | frontend/src/services/api.js:31-40 | `message`, then `detail`, then "HTTP status"; a text body gives its text; as written a text body fails instead |
| ApiClient.DeleteErrorCases | frontend/src/services/api.js:139-148 | foreign-key or constraint errors become the existing-orders text; others pass unchanged |
| ApiClient.UploadFallbackOrder | frontend/src/services/api.js:151-194 | no token fails first; otherwise the first endpoint's success wins, then the second's, else the last error |
| ApiClient.UploadFile | frontend/src/services/api.js:151-194 | the loop's outcome and the endpoints it requested, in order, are those specified |
| ApiClient.CreateProductBodyValidates | frontend/src/services/api.js:106-121 | the server's product validation accepts the posted body iff the price is positive, and then stores the array given (or [] for anything else, never null) as the images, the stock sent, and an available product |
| ApiClient.HealthCheckAgainstServer | frontend/src/services/api.js:207-215 | against the server's `/health` answer the report never throws and its status is "error", with the failure's message, exactly when the probe failed; "healthy" otherwise |
| Media.RStripSlash | backend/main.py:27 | `rstrip('/')`: a prefix without a trailing slash; only slashes removed |
| Media.DefaultPublicUrlIsHttp | backend/main.py:27 | the default base URL starts with "http" |
| Media.NormalizeUrlCases | backend/main.py:89-95 | empty and http URLs unchanged; `/uploads/x` prefixed with the base; others put under `/uploads/` after `lstrip('/')`: every leading slash is dropped and the rest kept |
| Media.NormalizeUrlIdempotent | backend/main.py:86-95 | with an http base, normalising twice is normalising once |
| Media.NormalizeImages | backend/main.py:97-108 | lists keep their length; non-lists are left alone |
| Media.NormalizeList | backend/main.py:99-107 | the loop normalises each element, keeping length and order |
| Media.NormalizeImagesIdempotent | backend/main.py:97-108 | with an http base, normalising a list twice is normalising once |
| Media.ProductMedia.MakeAbsoluteMedia | backend/main.py:86-111 | both fields replaced by their normalised values |
| Models.ParseStatus | backend/models.py:8-14 | a parsed value renders back to the same text |
| Models.StatusRoundTrip | backend/models.py:8-14 | every status parses back from its value |
| Models.SixStatuses | backend/models.py:8-14 | exactly six distinct status values |
| Models.ValidatePrice | backend/models.py:26-31 | accepts iff > 0, returning the value; otherwise the price error |
| Models.ValidateUpdatePrice | backend/models.py:45-50 | None passes; otherwise accepts iff > 0 |
| Models.ValidateQuantity | backend/models.py:73-78 | accepts iff > 0; otherwise the quantity error |
| Models.UpdatePriceAgreesWithCreate | backend/models.py:26-50 | the update validator agrees with the create validator on given prices |
| Models.ProductDefaults | backend/models.py:17-31 | valid iff price > 0; omitted fields default to stock 0, available, images [] |
| Catalogue.EitherFound | backend/main.py:180-182 | Python's short-circuit `or` over tests that may raise |
| Catalogue.FilterRowsSpec | backend/main.py:176-182 | a filter fails iff some row's test raises; otherwise it keeps exactly the passing rows, as a sublist |
| Catalogue.PySlice | backend/main.py:186 | a slice is the run starting at the normalised start bound |
| Catalogue.PageBounds | backend/main.py:186 | for limit ≥ 0 at most `limit` rows; always a sublist; the run at `skip` for non-negative bounds |
| Catalogue.FilteredSpec | backend/main.py:175-182 | the filtered rows are exactly those passing both active filters, in order |
| Catalogue.GetProductsSpec | backend/main.py:164-192 | a page is a sublist of the catalogue, its rows pass both filters, ≤ limit rows for limit ≥ 0 |
| Catalogue.NegativeLimitPage | backend/main.py:186 | `limit = -1` returns all rows but the last |
| Catalogue.SearchSpec | backend/main.py:499-519 | the first `limit` matches on name, description or category (all but the last −limit for a negative limit) |
| Catalogue.InsertSpec | backend/main.py:527-528 | sorted insertion keeps the list strictly sorted and adds exactly the new value |
| Catalogue.CategoriesSpec | backend/main.py:522-531 | the category list is strictly sorted (so duplicate-free) and holds exactly the non-empty categories that occur |
| Catalogue.ConfirmPending | backend/main.py:482-483 | confirming a pending order lowers pending by 1 and raises revenue by its total |
| Catalogue.CountsBounded | backend/main.py:478-484 | pending and low-stock counts never exceed the rows counted |
| Orders.LineError | backend/main.py:339-349 | a line passes iff its product exists with stock ≥ quantity; 404 iff the product is unknown |
| Orders.FirstErrorSpec | backend/main.py:339-349 | the checks pass iff every line passes; otherwise the first failing line's error |
| Orders.Priced | backend/main.py:351-361 | one stored row per line with the catalogue's unit price |
| Orders.Restocked | backend/main.py:383-386 | every product loses exactly what the lines ask of it; names and prices unchanged |
| Orders.CheckAndPrice | backend/main.py:339-361 | the first loop yields the first error, or the catalogue-priced total and rows |
| Orders.Database.constructor | backend/main.py:332-396 | the given catalogue, no orders |
| Orders.Database.CreateOrder | backend/main.py:332-396 | succeeds iff checks pass and the insert returns a row; on failure nothing changes; on success a pending order with the server total is stored and stock decremented |
| Orders.Database.TakeStock | backend/main.py:383-386 | the stock loop yields the restocked catalogue |
| Orders.Database.CreateOrderChecked | backend/main.py:332-396 | corrected: aggregate demand is checked too, so stock never goes negative |
| Orders.RestockedNonNegative | backend/main.py:383-386 | with total demand covered, no stock goes negative |
| Orders.DemandOfValidated | backend/models.py:73-78 | lines whose quantities pass the validator ask at least each line's (positive) quantity of its product |
| Orders.DemandNonNegative | backend/models.py:73-78 | validated lines never ask a negative amount of any product |
| Orders.ValidatedLinesLowerStock | backend/main.py:383-386 | after validated lines the stock loop strictly lowers every named product's stock and leaves the others' stock unchanged |
| Orders.DistinctLinesCovered | backend/main.py:339-349 | with each product on one line, the per-line check covers total demand |
| Orders.OversellExample | backend/main.py:339-386 | two one-unit lines for a product with one unit pass the checks and leave stock -1 |
| Orders.ItemsOf | backend/models.py:68-80 | the server reads one line per order item with its id and quantity |
| Orders.StorefrontOrdersKeepStock | backend/main.py:339-386 | an order from a valid storefront cart never takes stock negative |
| Orders.StorefrontTotalAgrees | backend/main.py:351-353 | with current catalogue prices, the server total equals the storefront's total |

## Left out

- Rendering, styling, `alert` and `console` output, and the header, footer, routing and cart-dialog components.
- Timers, autoplay and keyboard handling in the gallery. A separate `AnimationDone` step stands for the timer that clears the animating flag.
- `fetch`, `localStorage` and `navigator.onLine` are parameters. So is the settled `createOrder` promise, and so are the database's results.
- React's asynchronous state batching: state updates are immediate.
- JavaScript `null` and `undefined` are not distinguished.
- Prices are integers, so `parseFloat`/`parseInt` and the two-decimal display are left out.
- Python's `str.lower()` is modelled on ASCII letters only.
- FastAPI's 422 responses carry `detail` as a list. The error text they give is not modelled.
- The older component posts `customer` and `total`, which the backend's order model does not read. Their effect on the server is not modelled.
- `_make_absolute_media` swallows any exception with `except Exception: pass`. The model has no exception there to swallow.
- `checkStorageStatus`, login, logout and the other thin request wrappers are left out. They have no logic beyond `apiRequest`.
- The database client (`backend/db_service.py`), authentication (`backend/auth.py`), file storage in `upload_file`, CORS and environment parsing are left out. They are foreign-library calls.
- `created_at`, the customer record and `notes` of a stored order are left out. No check reads them.
- ProductGallery.StepsAreInverse: repeated stepping (k steps forward equals i+k mod n) is not proved. Only single steps and their inverse are.
- LegacyApp.LegacyAcceptsExplicitFailure: the newer checkout's thrown message for that answer is not pinned to its text.
- Orders.Database.CreateOrder: the re-read of each product in the stock loop is taken to find it. A product deleted between the two loops would give a 500 that is not modelled.
- Orders.Database.CreateOrder: a failure of `create_order_items` or of an `update_product` call after the order row is inserted is not modelled. The source answers 500 with the order already stored and the stock only partly decremented; the model treats those calls as always succeeding.
- Orders.Database.CreateOrderChecked: requests run one at a time. Concurrent requests that interleave at the `await`s between the check loop and the stock loop can still oversell, so "stock never goes negative" holds only for serialised requests.
- The `timestamp` of the server's health answer, and any field of it other than `status`, are not modelled.
- `createProduct`: a `parseInt` or `parseFloat` that gives `NaN` is not modelled; price and stock arrive as integers.

## Findings

| source | as written | input that shows it | evidently intended | confidence | as-written member | corrected member |
|---|---|---|---|---|---|---|
| frontend/src/components/ProductModal.js:170-186 | `handleTouchEnd` calls `prevImage`/`nextImage` before clearing `isDragging`, and both return at once while dragging | three images, touch start at x=200, move to x=100, release: index stays 0 | a swipe past the threshold changes the image | not executed; high | ProductGallery.Carousel.TouchEnd | ProductGallery.Carousel.TouchEndIntended |
| frontend/src/services/api.js:33-38 | when `response.json()` fails, `response.text()` reads a body that is already consumed and rejects | a 502 whose body is plain text: a TypeError instead of the text or "HTTP 502" | the body text, else "HTTP status" | not executed; medium | ApiClient.ErrorAsWritten | ApiClient.ErrorMessage |
| frontend/src/services/api.js:16-23 | `...options` after `headers` replaces the merged headers when the caller passes `headers` | a token plus `{ headers: { X: "1" } }`: no Authorization and no Content-Type | caller headers merged into the defaults | not executed; low (no caller passes headers) | ApiClient.RequestHeadersAsWritten | ApiClient.RequestHeaders |
| backend/main.py:339-386 | stock is checked per line, but decremented per line cumulatively | stock 1, items `[{id, 1}, {id, 1}]`: both pass, stock ends at -1 | total demand per product checked against stock | not executed; medium | Orders.Database.CreateOrder | Orders.Database.CreateOrderChecked |
