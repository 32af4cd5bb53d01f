# Storefront carts, checkout and catalogue: a Dafny model

This project models the client-side core of a React Native storefront. Shoppers browse a catalogue, optionally by category or by search. They add products to a cart and pay by card. Administrators also add products and edit users. The model covers these parts:

- **The nested cart.** `screens/Productos/CartContext.js` is a reducer over `{producto, cantidad}` lines. `NestedCart.Reduce` is that reducer as a pure function, and `NestedCart.CartProvider` is the provider that holds the state.
- **Screens that read the nested cart.** `CarritoScreen` shows the total, each line's subtotal and the footer. `FloatingCartButton` shows the unit count.
- **Screens that read the flat cart.** The flat cart holds `{_id, nombre, precio, quantity}` items and is provided by `context/CartContext.js`.
  - `CartIcon` shows the badge.
  - `CartItem` holds the quantity stepper.
  - `CartScreen` holds subtotal, shipping, total and the amount in cents. It also runs the stock validation before the payment modal opens, and the checkout sequence: payment intent, confirmation, a per-line stock decrement, then clearing the cart.
- **The catalogue screens.** Both compute the same visibility rule: customers see only products in stock, and administrators see everything. `BusquedaScreen` renders the filtered list. `ProductosScreen` computes it but renders the unfiltered list (see "## Findings"). `ProductosScreen` also picks the endpoint for the selected category. `CategoriasScreen` maps each category name to its card and image URL.
- **The forms.**
  - The add-product form: the field gates, the image list, and the multipart body.
  - Three user-edit forms: the validation rules and the request body each one sends.
  - The header search box.

Each source file is one module. Value-level logic uses datatypes, functions and lemmas. Each screen's React state is a `class` whose fields are that state, and its handlers are methods with `modifies this`. Handlers with a decision to make are proved against a specification function, and the properties are proved as lemmas about those functions. Examples are checkout, cart validation, the form submissions and the reducer. Handlers that only store a reply or a typed value state their new fields directly in their contract. These are the two fetches, the card field and the search box's text.

Requests to the server and their replies are not modelled as I/O:

- Each reply is a parameter of the handler that awaits it, so a reply may be any value.
- Each screen that issues requests records them in a log field (`requests`, `fetched`, `posted`, `sent`, `navigations`), and the contracts state that log.

## Model

| member | source | states |
|---|---|---|
| NestedCart.FindIndex | screens/Productos/CartContext.js:12 | the first line with the payload's id, or -1 exactly when no line has that id |
| NestedCart.Without | screens/Productos/CartContext.js:27 | removal keeps exactly the lines whose product id differs, and never lengthens the cart |
| NestedCart.Reduce | screens/Productos/CartContext.js:9-36 | definition of the reducer; its properties are proved in NestedCart.AddExisting, NestedCart.AddNew, NestedCart.RemoveIdempotent, NestedCart.WithoutUnique, NestedCart.ClearAndUnrecognised and NestedCart.ReducePreservesWellFormed |
| NestedCart.ReduceAll | screens/Productos/CartContext.js:9-39 | definition of a sequence of dispatches; its property is proved in NestedCart.ReachableWellFormed |
| NestedCart.AddExisting | screens/Productos/CartContext.js:11-16 | adding a product already in the cart raises that line's quantity by one and leaves every other line and the length unchanged |
| NestedCart.AddNew | screens/Productos/CartContext.js:17-21 | adding a product not in the cart appends one line with quantity 1 |
| NestedCart.WithoutOfConcat | screens/Productos/CartContext.js:27 | the removal filter distributes over concatenation |
| NestedCart.WithoutAbsent | screens/Productos/CartContext.js:24-28 | removing an id that is not in the cart returns the same lines |
| NestedCart.RemoveIdempotent | screens/Productos/CartContext.js:24-28 | removing twice is removing once, and removing an absent id changes nothing |
| NestedCart.WithoutOnlyAt | screens/Productos/CartContext.js:24-28 | when line k is the only line with an id, removing that id deletes exactly position k |
| NestedCart.WithoutUnique | screens/Productos/CartContext.js:24-28 | with unique ids, removing line k's id deletes exactly position k and keeps the order of the rest |
| NestedCart.WithoutWellFormed | screens/Productos/CartContext.js:24-28 | removal keeps ids unique and quantities positive |
| NestedCart.ReducePreservesWellFormed | screens/Productos/CartContext.js:9-36 | every action, unknown ones included, keeps unique ids and positive quantities |
| NestedCart.ReachableWellFormed | screens/Productos/CartContext.js:9-39 | every state reachable from the initial empty cart has unique ids and positive quantities |
| NestedCart.ClearAndUnrecognised | screens/Productos/CartContext.js:30-34 | clearing empties the cart, and an unrecognised action returns the state unchanged |
| NestedCart.CartProvider.constructor | screens/Productos/CartContext.js:39 | the provider starts from the empty cart |
| NestedCart.CartProvider.AddToCart | screens/Productos/CartContext.js:41-43 | the new state is the reducer applied to ADD_TO_CART, and the invariant holds |
| NestedCart.CartProvider.RemoveFromCart | screens/Productos/CartContext.js:45-47 | the new state is the reducer applied to REMOVE_FROM_CART, and the invariant holds |
| NestedCart.CartProvider.ClearCart | screens/Productos/CartContext.js:49-51 | the new state is the reducer applied to CLEAR_CART, and the invariant holds |
| CarritoScreen.CalcularTotal | screens/Productos/CarritoScreen.js:8-10 | definition of the footer total; its properties are proved in CarritoScreen.TotalOfConcat, CarritoScreen.TotalIsSumOfDisplayedSubtotals and CarritoScreen.RemoveLowersTotalByLineSubtotal |
| CarritoScreen.ShowsFooter | screens/Productos/CarritoScreen.js:31 | definition of the footer condition; its property is proved in FloatingCartButton.HiddenIffEmpty |
| CarritoScreen.DisplayedSubtotals | screens/Productos/CarritoScreen.js:16 | definition of the row subtotals; its property is proved in CarritoScreen.TotalIsSumOfDisplayedSubtotals |
| CarritoScreen.TotalOfConcat | screens/Productos/CarritoScreen.js:8-10 | the total of two carts joined is the sum of their totals |
| CarritoScreen.TotalOfSmallCarts | screens/Productos/CarritoScreen.js:8-10 | the empty cart totals 0, and a one-line cart totals that line's subtotal |
| CarritoScreen.TotalIsSumOfDisplayedSubtotals | screens/Productos/CarritoScreen.js:8-16 | the footer total equals the sum of the subtotals shown on the rows |
| CarritoScreen.RemoveLowersTotalByLineSubtotal | screens/Productos/CarritoScreen.js:8-17 | pressing a row's remove button lowers the total by exactly that row's subtotal |
| FloatingCartButton.CantidadTotal | screens/Productos/FloatingCartButton.js:7 | definition of the unit count; its properties are proved in FloatingCartButton.CountOfConcat, FloatingCartButton.CountAfterUpdate and FloatingCartButton.AddRaisesCountByOne |
| FloatingCartButton.IsHidden | screens/Productos/FloatingCartButton.js:9 | definition of the hidden button; its property is proved in FloatingCartButton.HiddenIffEmpty |
| FloatingCartButton.CountOfConcat | screens/Productos/FloatingCartButton.js:7 | the unit count of two carts joined is the sum of their counts |
| FloatingCartButton.CountAtLeastLines | screens/Productos/FloatingCartButton.js:7-9 | with positive quantities, the unit count is at least the number of lines |
| FloatingCartButton.HiddenIffEmpty | screens/Productos/FloatingCartButton.js:7-9 | in every well-formed state, the button is hidden exactly when the cart is empty, which is exactly when the cart screen hides its footer |
| FloatingCartButton.CountAfterUpdate | screens/Productos/FloatingCartButton.js:7 | changing one line's quantity changes the count by the difference |
| FloatingCartButton.AddRaisesCountByOne | screens/Productos/FloatingCartButton.js:7 | each add raises the count by exactly one, whether the product was new or not, and clearing makes it 0 |
| CartIcon.ItemCount | components/CartIcon.js:9 | definition of the badge count; its properties are proved in CartIcon.CountBoundsEachQuantity |
| CartIcon.ShowsBadge | components/CartIcon.js:14 | definition of the badge condition; its properties are proved in CartIcon.EmptyCartHasNoBadge and CartIcon.CountBoundsEachQuantity |
| CartIcon.EmptyCartHasNoBadge | components/CartIcon.js:9-14 | the empty cart counts 0 and shows no badge |
| CartIcon.CountBoundsEachQuantity | components/CartIcon.js:9-14 | with non-negative quantities, the badge count is at least each item's quantity, and one positive quantity shows the badge |
| CartItem.MinusRequest | components/CartItem.js:20-23 | minus requests quantity - 1 exactly when quantity > 1, so the request is never below 1 |
| CartItem.PlusRequest | components/CartItem.js:33 | plus requests a larger quantity |
| CartItem.StepperRoundTrip | components/CartItem.js:20-33 | plus then minus returns to the quantity, and minus then plus does too |
| Catalog.IsAdmin | screens/Productos/ProductosScreen.js:20 | definition of the administrator test; its consequences are proved in ProductosScreen.RenderedListRespectsRole and BusquedaScreen.RenderedResultsRespectRole |
| Catalog.VisibleProducts | screens/Productos/ProductosScreen.js:56-59 | a product is kept exactly when it is in the list and the viewer is an admin or the product's stock is positive |
| Catalog.AdminSeesEverything | screens/Productos/ProductosScreen.js:57 | for an admin the filter is the identity |
| Catalog.VisibleIsSubsequence | screens/Productos/ProductosScreen.js:56-59 | the filter keeps the server's order |
| Catalog.VisibleOfConcat | screens/Productos/ProductosScreen.js:56-59 | filtering distributes over concatenation, so filtering a page at a time gives the same list |
| Catalog.CustomerSeesOnlyInStock | screens/Productos/ProductosScreen.js:58 | a customer sees a product exactly when it is listed and has stock |
| Catalog.LowStock | screens/Productos/ProductosScreen.js:106 | definition of the low-stock badge condition; what it means for a customer is proved in ProductosScreen.RenderedListRespectsRole and BusquedaScreen.RenderedResultsRespectRole |
| CartScreen.Subtotal | screens/CartScreen.js:22-24 | definition of the subtotal; its properties are proved in CartScreen.SubtotalOfConcat and CartScreen.SubtotalSumsItems |
| CartScreen.Total | screens/CartScreen.js:26-28 | definition of the total; its properties are proved in CartScreen.SubtotalSumsItems and CartScreen.WorkedExample |
| CartScreen.RoundHalfUp | screens/CartScreen.js:71 | `Math.round` returns the integer within half a unit, rounding halves up |
| CartScreen.AmountMinorUnits | screens/CartScreen.js:71 | definition of the amount charged; its properties are proved in CartScreen.AmountIsTotalInCents and CartScreen.WorkedExample |
| CartScreen.SubtotalOfConcat | screens/CartScreen.js:22-24 | the subtotal of two carts joined is the sum of their subtotals |
| CartScreen.SubtotalSumsItems | screens/CartScreen.js:20-28 | the empty cart's subtotal is 0, each item adds price × quantity, and the total is the subtotal plus 5 shipping |
| CartScreen.WorkedExample | screens/CartScreen.js:20-28 | 2 × 10 plus 1 × 5 gives subtotal 25, total 30, and 3000 cents charged |
| CartScreen.AmountIsTotalInCents | screens/CartScreen.js:70-71 | the amount charged is within half a cent of the total, and exact when the total is a whole number of cents |
| CartScreen.ValidationReads | screens/CartScreen.js:32-33 | definition of the validation reads; CartScreen.Screen.OpenPaymentModal states that they are issued |
| CartScreen.InvalidItems | screens/CartScreen.js:35-43 | no item is invalid exactly when no successful reply shows less stock than the quantity |
| CartScreen.ValidateCart | screens/CartScreen.js:30-59 | the cart is valid exactly when every read resolved and none reported a shortage; any failed read rejects the whole cart |
| CartScreen.UnsuccessfulReplyAcceptsItem | screens/CartScreen.js:35-38 | an unsuccessful reply accepts its item whatever stock it reports, just like a successful reply with enough stock |
| CartScreen.StockUpdates | screens/CartScreen.js:86-99 | definition of the per-line update requests; their properties are proved in CartScreen.UpdatesOnlyTouchStock and CartScreen.WritesAreDecrements |
| CartScreen.AnyWriteRejected | screens/CartScreen.js:86-101 | `Promise.all` over the updates rejects exactly when some line's stock write rejected |
| CartScreen.Checkout | screens/CartScreen.js:61-113 | an incomplete card stops before any request; otherwise the first request is the payment intent for the total in cents |
| CartScreen.UpdatesOnlyTouchStock | screens/CartScreen.js:86-99 | the per-line updates issue only product reads and stock writes |
| CartScreen.ClearOnlyAfterSucceededPayment | screens/CartScreen.js:84-119 | the cart is cleared exactly on success, which needs a complete card, a "Succeeded" intent and no rejected stock write; stock is written only after such an intent |
| CartScreen.WritesAreDecrements | screens/CartScreen.js:88-95 | the stock writes are exactly one per line whose read succeeded, each carrying the stock read minus that line's quantity |
| CartScreen.MinusFromOneRequestsZero | screens/CartScreen.js:163-177 | on this screen, minus at quantity 1 requests quantity 0, where the CartItem stepper is disabled; plus requests 2 |
| CartScreen.Screen.constructor | screens/CartScreen.js:13-15 | the modal is closed, no card is entered, nothing is processing and no request has been made |
| CartScreen.Screen.OnCardChange | screens/CartScreen.js:254-256 | only the card's completeness changes |
| CartScreen.Screen.OpenPaymentModal | screens/CartScreen.js:122-127 | one read per item is issued, and the modal opens exactly when the cart validates |
| CartScreen.Screen.UpdateStock | screens/CartScreen.js:86-101 | the loop issues exactly the per-line updates and reports whether `Promise.all` rejects |
| CartScreen.Screen.HandleCheckout | screens/CartScreen.js:61-120 | the outcome and the requests are those of one checkout attempt; processing ends on every branch the card gate lets through; the modal closes only on success |
| ProductosScreen.SelectedCategory | screens/Productos/ProductosScreen.js:17 | definition of the selected category; its property is proved in ProductosScreen.PathNamesCategory |
| ProductosScreen.ProductosPath | screens/Productos/ProductosScreen.js:29-31 | definition of the endpoint read; its property is proved in ProductosScreen.PathNamesCategory |
| ProductosScreen.PathNamesCategory | screens/Productos/ProductosScreen.js:29-31 | the endpoint read names exactly the selected category, or is `/productos` when there is none |
| ProductosScreen.RenderedListAsWritten | screens/Productos/ProductosScreen.js:81 | definition of the list as written; its defect is exhibited in ProductosScreen.OutOfStockShownToCustomer |
| ProductosScreen.OutOfStockShownToCustomer | screens/Productos/ProductosScreen.js:56-81 | a signed-out customer is shown a product with zero stock that the intended filter would hide |
| ProductosScreen.RenderedList | screens/Productos/ProductosScreen.js:56-59 | the corrected list, which shows `visibleProducts`; its properties are proved in ProductosScreen.RenderedListRespectsRole |
| ProductosScreen.RenderedListRespectsRole | screens/Productos/ProductosScreen.js:56-59 | as intended, admins see the whole list, customers see exactly the in-stock products in order, and a low-stock badge shown to a customer means 1 to 5 units |
| ProductosScreen.Screen.constructor | screens/Productos/ProductosScreen.js:21-24 | the screen starts loading, with no products, no error and nothing fetched |
| ProductosScreen.Screen.FetchProductos | screens/Productos/ProductosScreen.js:26-44 | reads the category's endpoint; keeps the list on a successful reply that carries data; otherwise records the error or the fixed message; loading and refreshing end either way |
| ProductosScreen.Screen.HandleRefresh | screens/Productos/ProductosScreen.js:52-55 | a refresh is one more fetch with the same outcome |
| BusquedaScreen.SearchPath | screens/BusquedaScreen.js:37 | definition of the search endpoint; its property is proved in BusquedaScreen.SearchPathRoundTrip |
| BusquedaScreen.ShowsOutOfStockLabel | screens/BusquedaScreen.js:112 | definition of the label condition; its property is proved in BusquedaScreen.RenderedResultsRespectRole |
| BusquedaScreen.SearchPathRoundTrip | screens/BusquedaScreen.js:37 | the query can be read back from the search endpoint, so different queries read different endpoints |
| BusquedaScreen.RenderedResultsRespectRole | screens/BusquedaScreen.js:53-56 | admins see all results, customers see exactly the in-stock results in order, and customers never see the "Sin existencias" label |
| BusquedaScreen.Screen.constructor | screens/BusquedaScreen.js:30-32 | the screen starts loading, with no results and no error |
| BusquedaScreen.Screen.FetchResultados | screens/BusquedaScreen.js:35-48 | reads the search endpoint for the query; keeps the results on a successful reply with data; otherwise records the error; loading ends either way |
| CategoriasScreen.ToLower | screens/CategoriasScreen.js:25 | lower-casing keeps the length and lower-cases each character |
| CategoriasScreen.ImagenUrl | screens/CategoriasScreen.js:25 | definition of a card's image URL; its properties are proved in CategoriasScreen.SameUrlIffSameLowercase and CategoriasScreen.CaseVariantsShareUrl |
| CategoriasScreen.FormatCategorias | screens/CategoriasScreen.js:22-26 | one card per name, in order, carrying the name unchanged and its image URL |
| CategoriasScreen.SameUrlIffSameLowercase | screens/CategoriasScreen.js:25 | two categories share an image URL exactly when their lower-cased names are equal |
| CategoriasScreen.CaseVariantsShareUrl | screens/CategoriasScreen.js:25 | names that differ only in letter case share an image |
| CategoriasScreen.ToLowerIdempotent | screens/CategoriasScreen.js:25 | lower-casing twice is lower-casing once |
| CategoriasScreen.Screen.constructor | screens/CategoriasScreen.js:14-15 | the screen starts loading, with no cards and nothing fetched |
| CategoriasScreen.Screen.ObtenerCategorias | screens/CategoriasScreen.js:17-34 | reads the categories endpoint once; a reply carrying names replaces the cards with their formatted cards; a failed request keeps them; loading ends either way |
| AddProductScreen.SetField | screens/Productos/AddProductScreen.js:28-30 | the named field takes the value and every other field is unchanged |
| AddProductScreen.Splice | screens/Productos/AddProductScreen.js:78-82 | removes the image at the index, counting negative indices from the end; an index past the end removes nothing |
| AddProductScreen.CreationGate | screens/Productos/AddProductScreen.js:84-93 | rejects missing name, price or stock first, then an empty image list, and passes exactly when all four are present |
| AddProductScreen.NatToStringInjective | screens/Productos/AddProductScreen.js:123 | different image indices print differently |
| AddProductScreen.ImagePartsFollowList | screens/Productos/AddProductScreen.js:120-126 | one file part per image, in order, each with that image's uri, the name `imagen_<index>.jpg` and type image/jpeg |
| AddProductScreen.ImagePartNamesDistinct | screens/Productos/AddProductScreen.js:123 | no two image parts share a file name |
| AddProductScreen.MultipartBody | screens/Productos/AddProductScreen.js:110-126 | definition of the body posted; AddProductScreen.Screen.CrearProducto states that it is posted, and its image parts are described in AddProductScreen.ImagePartsFollowList |
| AddProductScreen.Screen.constructor | screens/Productos/AddProductScreen.js:14-26 | the form starts empty, with no images, not creating and nothing posted |
| AddProductScreen.Screen.HandleChange | screens/Productos/AddProductScreen.js:28-30 | the form becomes the old form with the field set |
| AddProductScreen.Screen.SubirImagen | screens/Productos/AddProductScreen.js:61-76 | a picked image is appended, not uploading |
| AddProductScreen.Screen.EliminarImagen | screens/Productos/AddProductScreen.js:78-82 | the image list becomes its splice at the index |
| AddProductScreen.Screen.CrearProducto | screens/Productos/AddProductScreen.js:84-143 | rejects by the creation gate and posts nothing; otherwise posts the seven text parts followed by one part per image; the creating flag ends either way |
| EditProfileScreen.SetField | screens/Usuarios/EditProfileScreen.js:27-32 | the named field takes the value and every other field is unchanged |
| EditProfileScreen.SubmitDecision | screens/Usuarios/EditProfileScreen.js:34-57 | definition of the submit decision; its properties are proved in EditProfileScreen.SubmitRejections and EditProfileScreen.SubmitPayload |
| EditProfileScreen.SubmitRejections | screens/Usuarios/EditProfileScreen.js:34-43 | rejects exactly when the name or email is missing, then when a non-empty new password differs from its confirmation |
| EditProfileScreen.SubmitPayload | screens/Usuarios/EditProfileScreen.js:49-57 | the body is exactly name and email, plus the current and new passwords when a new one was typed; the confirmation is never sent |
| EditProfileScreen.Screen.constructor | screens/Usuarios/EditProfileScreen.js:18-25 | the form starts from the user's name and email with empty passwords, not loading |
| EditProfileScreen.Screen.HandleChange | screens/Usuarios/EditProfileScreen.js:27-32 | the form becomes the old form with the field set |
| EditProfileScreen.Screen.HandleSubmit | screens/Usuarios/EditProfileScreen.js:34-72 | sends exactly the decided body or nothing; loading is untouched on a rejection and false after a send |
| UsuariosEditUser.SaveDecision | screens/Usuarios/EditUser.js:22-47 | definition of the save decision; its properties are proved in UsuariosEditUser.SaveRejections and UsuariosEditUser.SavePayload |
| UsuariosEditUser.SaveRejections | screens/Usuarios/EditUser.js:22-44 | rejects a missing name or email, or a new password of 1 to 5 characters; then rejects a new password typed without the current one |
| UsuariosEditUser.SavePayload | screens/Usuarios/EditUser.js:35-49 | the body is exactly name and email, plus both passwords when an accepted new one was typed |
| UsuariosEditUser.Screen.constructor | screens/Usuarios/EditUser.js:16-20 | the fields start from the user's name and email with empty passwords, not loading |
| UsuariosEditUser.Screen.HandleSave | screens/Usuarios/EditUser.js:22-68 | sends exactly the decided body or nothing; loading is untouched only on the first rejection, and false after the missing-current-password rejection or a send |
| EditUser.SaveDecision | screens/EditUser.js:23-36 | definition of the save decision; its properties are proved in EditUser.SaveRules |
| EditUser.SaveRules | screens/EditUser.js:25-36 | rejects exactly a missing name or email or a 1-to-5-character password; an empty password is not sent, and a longer one is sent under `password` |
| EditUser.Screen.constructor | screens/EditUser.js:18-21 | the fields start from the user's name and email with an empty password, not loading |
| EditUser.Screen.HandleSave | screens/EditUser.js:23-53 | sends exactly the decided body or nothing; loading is untouched on a rejection and false after a send |
| HeaderSearchInput.TrimStart | components/HeaderSearchInput.js:12 | drops exactly the leading whitespace, leaving a suffix of the text |
| HeaderSearchInput.TrimEnd | components/HeaderSearchInput.js:12 | drops exactly the trailing whitespace, leaving a prefix of the text |
| HeaderSearchInput.Trim | components/HeaderSearchInput.js:12 | definition of `trim`; its property is proved in HeaderSearchInput.TrimEmptyIffBlank |
| HeaderSearchInput.TrimEmptyIffBlank | components/HeaderSearchInput.js:12 | the trimmed query is empty exactly when every character is whitespace |
| HeaderSearchInput.SearchInput.constructor | components/HeaderSearchInput.js:9 | the box starts empty, with no navigation |
| HeaderSearchInput.SearchInput.SetQuery | components/HeaderSearchInput.js:25 | typing replaces the query |
| HeaderSearchInput.SearchInput.HandleSearch | components/HeaderSearchInput.js:11-16 | a blank query changes nothing; otherwise it navigates to the results with the query as typed, untrimmed, and empties the box |

## Left out

- Network I/O is not modelled. Each reply is a handler parameter, one reply per request, so a reply may be any value.
- Concurrency is not modelled. `Promise.all` over the validation reads and the stock updates is a sequential loop in cart order. Which reads fail and which writes reject is a per-line parameter. Interleavings between lines, and between a handler and later renders, are not modelled.
- Money is modelled as exact real numbers, not IEEE doubles. For example, 12.345 × 100 is exactly 1234.5 here, but slightly less as a double. `Math.round` therefore agrees with `CartScreen.RoundHalfUp` only where the double product is exact.
- `context/CartContext.js`, which provides the flat cart, is not part of this model. Its operations appear only as `FlatCart.CartRequest` values that the flat-cart screens issue. The effect of each request on the cart is not modelled.
- NestedCart.Reduce: on ADD_TO_CART for an existing product, the source copies the array but increments `cantidad` on the line object it shares with the previous state. The model builds a new line, so the aliasing of the previous state is not modelled. Under `useReducer` the previous state is discarded, so the visible cart is the same.
- CartScreen.Checkout: the cart clear and the return to the previous screen are issued when the success alert's OK button is pressed. The model issues them on success, as if OK were pressed.
- Alerts, toasts, spinners, layout, images, styles and navigation other than the search box's are left out. They carry no state that the modelled handlers read.
- The success-path side effects `refreshProfile`, `refreshUsers` and the delayed navigation are left out, and so are the server's replies to the user-edit PUTs. The user-edit handlers record the body they send and nothing else.
- The auth token is not modelled. It is read from AsyncStorage, or from `user.token`, and goes only into request headers.
- AddProductScreen.Screen.CrearProducto: `parseFloat` and `parseInt` are left out. The printed price and stock are parameters (`precioText`, `existenciaText`). The image picker and its permission prompt are also left out. `SubirImagen` receives the picked uri.
- CategoriasScreen.ToLower: only ASCII letters are lower-cased. `toLowerCase` on other scripts is not modelled.
- HeaderSearchInput.Trim: the whitespace set is the ASCII whitespace plus U+00A0 and U+FEFF. The other Unicode space separators, and U+2028 and U+2029, are not included.
- String lengths are counted in characters, not UTF-16 code units, for the 6-character password minimum.
- CartScreen.ValidateCart: a lookup reply with `success` true and no `producto` body throws, so the whole cart is rejected. The model folds that case into `LookupThrew`. A stock-update read that returns no product body is likewise `ReadFailed`.
- The source has three defects that stop it from running, and the model assumes each is fixed:
  - `screens/CartScreen.js:18` redeclares `navigation`, which is a parse error. The model assumes that line is absent.
  - `screens/Usuarios/EditUser.js:57` calls the undefined `navigatio` inside a timer. The timer is not modelled.
  - `App.js:11` imports the wrong screen. Routing is not modelled.
- CartScreen.Checkout: a rejected stock write is not swallowed:
  - In the per-line update, `API.put` is returned without `await`. A rejected stock write therefore escapes the line's own `catch`, rejects `Promise.all`, and lands in the outer catch ("error processing the payment"). The cart is then not cleared, even though the payment succeeded.
  - Only a failed read is swallowed per line.
  - No separate partial-failure state exists.

## Findings

| source | as written | input that shows it | evidently intended | confidence | as-written member | corrected member |
|---|---|---|---|---|---|---|
| screens/Productos/ProductosScreen.js:81 | the list is given the unfiltered `productos`; `visibleProducts` (lines 56-59) is computed but never used | a signed-out customer and the catalogue `[Product "p1" with existencia 0]`: the product is shown | the list shows `visibleProducts`, so customers see only products in stock, as `BusquedaScreen.js:78` does | high (not executed) | ProductosScreen.RenderedListAsWritten, ProductosScreen.OutOfStockShownToCustomer | ProductosScreen.RenderedList, ProductosScreen.RenderedListRespectsRole |
