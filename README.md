# Furniture storefront: a verified model of its core

This project models the logic behind a furniture storefront in Dafny. The
storefront sells to stores (`loja`) and restaurants (`restaurante`) and is
administered by an `admin` user. Its logic is small: in-memory collections
that are persisted to a two-tier store. The remote tier is a JSON file per
collection in a repository; the local tier is the browser's key-value
storage, used only when the remote call throws.

One module per source file:

| module | file | what it covers |
|---|---|---|
| `Cart` | client/src/contexts/CartContext.tsx | the cart reducer (add with merge, set quantity, remove, clear), its totals, and the provider |
| `Storage` | client/src/lib/github.ts (as used) | the two stores as maps, a persist that falls back to local storage |
| `Data` | client/src/contexts/DataContext.tsx | loading with all-or-nothing local fallback, seeding of defaults, add/update/delete of six collections |
| `Auth` | client/src/lib/auth.ts | session user, sign-in with local fallback, registration, seeding of the user list |
| `AuthContext` | client/src/contexts/AuthContext.tsx | the provider's `user` and `isLoading`: mount, login, logout |
| `CartSidebar` | client/src/components/CartSidebar.tsx | quantity handlers and sending the order |
| `StoreDashboard` | client/src/pages/StoreDashboard.tsx | product, promotion and announcement filters; the category and search state |
| `ProductModal` | client/src/components/ProductModal.tsx | carousel, quantity control, colour fallback, unit price, add to cart |
| `ProductForm` | client/src/components/ProductFormModal.tsx | form reset, image-field and colour edits, submit |
| `SpaRedirect` | docs/spa-redirect.js | restoring a saved route; parsing `?p=…&q=…` and rebuilding the address |

`Schema` holds the entities (users, products, categories, colours, pricing
tables, promotions, announcements, cart lines). `Seqs` holds `filter`,
`map`, `findIndex` and `find` with their facts. `Wrappers` holds `Option`
and `Result`.

Modelling choices:

- A remote call that throws is an input to the operation that makes it:
  - `fails` for one write;
  - `readFails` and `writeFails` for the user list;
  - `readFailing` and `writeFailing`, sets of collection paths, for loading and seeding.
- A stored value is either `Parsed(doc)` or `Unparsable`:
  - an unparsable remote file reads as `null`, like `readJsonFile`'s own `catch`;
  - an unparsable local value makes `JSON.parse` throw.
- Generated ids and timestamps are parameters (`stamp`, `freshId`, `now`).
- Prices and multipliers are `real`.

Stateful sources become classes whose methods are proved against functions
on values:

- `Cart.CartProvider.Dispatch` against `Cart.Reduce`;
- `Data.DataProvider.FetchData` against `Data.Loaded`, `Data.Seeded` and `Data.SeedStores`;
- `Auth.AuthenticateUser` against `Auth.Authenticate`.

The properties the source promises are proved about those functions.

## Model

| member | source | states |
|---|---|---|
| Cart.AddItemMerges | client/src/contexts/CartContext.tsx:27-45 | when a line for the same product and colour exists, the first such line gets the added quantity and a total of its own unit price times the new quantity, and keeps its id, product, colour, names, image and unit price; the length and every other line are unchanged |
| Cart.AddItemAppends | client/src/contexts/CartContext.tsx:46-54 | with no matching line, exactly one line is appended: fresh id, the payload's product, name, image, colour, colour name, quantity and price, total = price × quantity; the old lines stay a prefix |
| Cart.WithoutLineRemoves | client/src/contexts/CartContext.tsx:80-84 | removal by id leaves no line with that id, keeps every other line, in order; an absent id changes nothing |
| Cart.UpdateToZeroRemoves | client/src/contexts/CartContext.tsx:59-64 | UPDATE_QUANTITY with a quantity ≤ 0 is REMOVE_ITEM, so no line with the id remains |
| Cart.UpdateQuantitySets | client/src/contexts/CartContext.tsx:66-77 | a positive quantity sets quantity and recomputes total on exactly the lines with the id; other lines and the length are unchanged |
| Cart.ClearCartEmpties | client/src/contexts/CartContext.tsx:86-87 | CLEAR_CART gives no lines, zero items and a zero amount |
| Cart.ReduceKeepsOneLinePerProduct | client/src/contexts/CartContext.tsx:24-92 | every action keeps at most one line per (product, colour) |
| Cart.ReduceKeepsWellPriced | client/src/contexts/CartContext.tsx:24-92 | every action keeps each line's total equal to unit price × quantity |
| Cart.ReduceKeepsUniqueIds | client/src/contexts/CartContext.tsx:24-92 | line ids stay unique when ADD_ITEM's new id is not in use |
| Cart.TotalAmountIsPriceOfLines | client/src/contexts/CartContext.tsx:117-118 | in a well-priced cart the `reduce` over totals equals the sum of unit price × quantity, an independent definition |
| Cart.AddItemTotalItems | client/src/contexts/CartContext.tsx:26-55 | ADD_ITEM raises `totalItems` by exactly the added quantity, whether it merges or appends |
| Cart.AddItemTotalAmount | client/src/contexts/CartContext.tsx:26-55 | ADD_ITEM raises `totalAmount` by the added quantity times the unit price of the line it lands in |
| Cart.TotalItemsAfterReplace | client/src/contexts/CartContext.tsx:117 | replacing one line changes `totalItems` by the difference of the quantities |
| Cart.TotalItemsAfterAppend | client/src/contexts/CartContext.tsx:117 | appending a line adds its quantity to `totalItems` |
| Cart.MergedLineAmount | client/src/contexts/CartContext.tsx:36-45 | merging units into one line raises `totalAmount` by that line's price × the added units |
| Cart.AppendedLineAmount | client/src/contexts/CartContext.tsx:46-54 | appending a well-priced line raises `totalAmount` by its price × quantity |
| Cart.CartProvider.Dispatch | client/src/contexts/CartContext.tsx:98-99 | the new state is the reducer applied to the old one, and the cart invariants hold |
| Cart.CartProvider.AddItem | client/src/contexts/CartContext.tsx:101-118 | dispatches ADD_ITEM; `totalItems` grows by the quantity and `totalAmount` by quantity × price |
| Cart.CartProvider.UpdateQuantity | client/src/contexts/CartContext.tsx:105-107 | dispatches UPDATE_QUANTITY, keeping the invariants |
| Cart.CartProvider.RemoveItem | client/src/contexts/CartContext.tsx:109-111 | dispatches REMOVE_ITEM; no line with the id remains |
| Cart.CartProvider.ClearCart | client/src/contexts/CartContext.tsx:113-115 | dispatches CLEAR_CART; the cart is empty |
| Storage.ReadRemote | client/src/contexts/DataContext.tsx:51 | a remote read yields a document exactly when the file exists and parses, and that document is the file's content |
| Storage.PersistedReadsBack | client/src/contexts/DataContext.tsx:319-325 | a persisted document reads back from the tier written (remote, or local when the remote write throws); the other tier is untouched |
| Storage.Stores.Persist | client/src/contexts/DataContext.tsx:319-325 | write remote; on failure write the local key |
| Data.AnyRemoteFailureReadsAllLocal | client/src/contexts/DataContext.tsx:49-66 | one failing remote read makes all six collections come from local storage |
| Data.RemoteLoadIgnoresLocal | client/src/contexts/DataContext.tsx:49-56 | with every remote read succeeding, local storage is not consulted and a missing file loads as empty |
| Data.WriteLoadsBack | client/src/contexts/DataContext.tsx:49-66 | a persisted collection is what the next load returns for it, from the tier the write reached |
| Data.LocalWriteShadowedByRemote | client/src/contexts/DataContext.tsx:49-66 | a write that fell back to local storage is invisible while the remote reads succeed |
| Data.DefaultsShape | client/src/contexts/DataContext.tsx:100-290 | defaults: categories cat-1..cat-5, three colours, six active tables (five for stores, one for restaurants), two active products in cat-3 using seeded colours |
| Data.SeededFillsOnlyEmpty | client/src/contexts/DataContext.tsx:91-307 | seeding replaces only empty categories, colours, tables and products; promotions and announcements are untouched; none of the four is empty afterwards |
| Data.SeedingIdempotent | client/src/contexts/DataContext.tsx:91-307 | seeding twice is seeding once, and the second seeding writes nothing |
| Data.SeedingNothingEmptyWritesNothing | client/src/contexts/DataContext.tsx:91-307 | with nothing empty, seeding writes nothing |
| Data.DeleteByIdRemovesOnly | client/src/contexts/DataContext.tsx:343-344 | delete by id leaves no record with the id, keeps all others in order, and an unknown id changes nothing |
| Data.UpdateByIdKeepsIds | client/src/contexts/DataContext.tsx:328-333 | an update whose merge keeps ids keeps the length and the sequence of ids |
| Data.MergeProductFields | client/src/contexts/DataContext.tsx:329-331 | in the spread merge each of the nine patchable fields takes the patch's value when present and keeps the product's otherwise, `updatedAt` is refreshed; merging twice is merging once |
| Data.MergeOthersFields | client/src/contexts/DataContext.tsx:373-376 | for categories, colours, tables, promotions and announcements the spread merge with an empty patch changes nothing, a patch without an id keeps the id, and merging twice is merging once |
| Data.UpdateProductsMerges | client/src/contexts/DataContext.tsx:328-333 | updateProduct keeps length and order and merges into exactly the products with the id |
| Data.DataProvider.ReadRemoteCollections | client/src/contexts/DataContext.tsx:49-56 | the six remote reads succeed exactly when none throws, giving the remote collections |
| Data.DataProvider.LoadCollections | client/src/contexts/DataContext.tsx:49-66 | the loaded collections are `Loaded`: remote, else all local, else none |
| Data.DataProvider.FetchData | client/src/contexts/DataContext.tsx:37-89 | ends not loading; on failure sets the error and changes nothing else; otherwise clears the error, holds the seeded collections and has persisted the seeded defaults |
| Data.DataProvider.InitializeDefaultData | client/src/contexts/DataContext.tsx:91-307 | fills each of the four collections that was empty and persists it |
| Data.DataProvider.AddProduct | client/src/contexts/DataContext.tsx:310-326 | appends one product with id "product-"+stamp, persists the new list; the rest unchanged |
| Data.DataProvider.UpdateProduct | client/src/contexts/DataContext.tsx:328-341 | merges the patch into the products with the id, with `updatedAt` refreshed, and persists |
| Data.DataProvider.DeleteProduct | client/src/contexts/DataContext.tsx:343-352 | drops the products with the id and persists |
| Data.DataProvider.AddCategory | client/src/contexts/DataContext.tsx:355-371 | appends a category with id "cat-"+stamp and productCount 0, persists |
| Data.DataProvider.UpdateCategory | client/src/contexts/DataContext.tsx:373-384 | merges into the categories with the id and persists |
| Data.DataProvider.DeleteCategory | client/src/contexts/DataContext.tsx:386-395 | drops the categories with the id and persists |
| Data.DataProvider.AddColor | client/src/contexts/DataContext.tsx:398-413 | appends a colour with id "color-"+stamp, persists |
| Data.DataProvider.UpdateColor | client/src/contexts/DataContext.tsx:415-426 | merges into the colours with the id and persists |
| Data.DataProvider.DeleteColor | client/src/contexts/DataContext.tsx:428-437 | drops the colours with the id and persists |
| Data.DataProvider.AddPricingTable | client/src/contexts/DataContext.tsx:440-455 | appends a table with id "pricing-"+stamp, persists |
| Data.DataProvider.UpdatePricingTable | client/src/contexts/DataContext.tsx:457-468 | merges into the tables with the id and persists |
| Data.DataProvider.DeletePricingTable | client/src/contexts/DataContext.tsx:470-479 | drops the tables with the id and persists |
| Data.DataProvider.AddPromotion | client/src/contexts/DataContext.tsx:482-497 | appends a promotion with id "promo-"+stamp, persists |
| Data.DataProvider.UpdatePromotion | client/src/contexts/DataContext.tsx:499-510 | merges into the promotions with the id and persists |
| Data.DataProvider.DeletePromotion | client/src/contexts/DataContext.tsx:512-521 | drops the promotions with the id and persists |
| Data.DataProvider.AddAnnouncement | client/src/contexts/DataContext.tsx:524-539 | appends an announcement with id "ann-"+stamp, persists |
| Data.DataProvider.UpdateAnnouncement | client/src/contexts/DataContext.tsx:541-552 | merges into the announcements with the id and persists |
| Data.DataProvider.DeleteAnnouncement | client/src/contexts/DataContext.tsx:554-563 | drops the announcements with the id and persists |
| Auth.SetCurrentUser | client/src/lib/auth.ts:16-18 | stores the user under the session key; nothing else changes |
| Auth.ClearCurrentUser | client/src/lib/auth.ts:20-22 | removes the session key; nothing else changes |
| Auth.SessionRoundTrip | client/src/lib/auth.ts:7-22 | a stored user reads back, a cleared session reads as none, other keys do not affect it |
| Auth.AuthenticateUser | client/src/lib/auth.ts:24-56 | result and stores are `Authenticate` of the old stores |
| Auth.AuthenticateMeaning | client/src/lib/auth.ts:44-51 | sign-in finds a user exactly when some listed user has both credentials; that user is listed, has them, and becomes the session; it is the first listed user with both credentials, as `find` returns; a refusal leaves the session; the remote store is never written |
| Auth.OfflineAdminSignsIn | client/src/lib/auth.ts:31-41 | offline with no stored list, the defaults are stored locally and the administrator signs in |
| Auth.CreateUser | client/src/lib/auth.ts:58-87 | result and stores are `Created` of the old stores |
| Auth.CreatedUserSignsIn | client/src/lib/auth.ts:58-87 | after a successful registration the new user can sign in online with the same credentials |
| Auth.CreatedTouchesOnlyRemote | client/src/lib/auth.ts:62-85 | registration never touches local storage; a refusal (taken email, failing read or write) changes nothing; success gives the fresh id and the email |
| Auth.InitializeDefaultUsers | client/src/lib/auth.ts:118-146 | the stores become `UsersInitialized` of the old ones |
| Auth.UsersInitializedIdempotent | client/src/lib/auth.ts:122-141 | seeding the user list twice is seeding it once, and never changes the session |
| Auth.SeededAdminSignsIn | client/src/lib/auth.ts:118-146 | on empty stores the administrator can sign in after seeding, except when the remote read works and the write throws |
| AuthContext.AuthProvider.Mount | client/src/contexts/AuthContext.tsx:23-31 | `user` is the stored session user, loading ends, and the user list is seeded |
| AuthContext.AuthProvider.Login | client/src/contexts/AuthContext.tsx:33-50 | callable in any state; true exactly when sign-in finds a user, who becomes `user`; otherwise `user` is kept; loading ends on every path; a context in step with the stored session stays in step |
| AuthContext.AuthProvider.Logout | client/src/contexts/AuthContext.tsx:52-55 | no user in memory or stored |
| CartSidebar.HandleQuantityChange | client/src/components/CartSidebar.tsx:20-26 | a quantity ≤ 0 removes the line, otherwise it is set |
| CartSidebar.HandlerAgreesWithReducer | client/src/components/CartSidebar.tsx:20-26 | the handler's choice agrees with the reducer's own ≤ 0 rule |
| CartSidebar.Decrement | client/src/components/CartSidebar.tsx:84 | the minus button removes a line of quantity 1 and lowers any other by one |
| CartSidebar.Increment | client/src/components/CartSidebar.tsx:97 | the plus button raises the quantity by one |
| CartSidebar.DecrementLastRemoves | client/src/components/CartSidebar.tsx:84 | decrementing a quantity-1 line removes exactly it, keeps the rest in order, and `totalItems` drops by one |
| CartSidebar.WithoutUniqueLine | client/src/components/CartSidebar.tsx:20-22 | removing a line with a unique id leaves the others in order and lowers `totalItems` by its quantity |
| CartSidebar.HandleSendWhatsApp | client/src/components/CartSidebar.tsx:28-34 | an empty cart sends nothing and changes nothing; otherwise the lines and total are sent and the cart is emptied |
| CartSidebar.SentTotalIsPrice | client/src/components/CartSidebar.tsx:31 | the total sent is the sum of price × quantity over the lines |
| StoreDashboard.Lower | client/src/pages/StoreDashboard.tsx:39-40 | lower-casing keeps the length and maps each character |
| StoreDashboard.LowerIdempotent | client/src/pages/StoreDashboard.tsx:39-40 | lower-casing twice is lower-casing once and leaves no A-Z |
| StoreDashboard.IncludesMeansOccurs | client/src/pages/StoreDashboard.tsx:39-40 | `includes` holds exactly when the needle occurs at some position |
| StoreDashboard.FilteredProductsMeaning | client/src/pages/StoreDashboard.tsx:34-43 | the catalogue is an ordered subsequence holding exactly the active products of the selected category that match the search, each with as many copies as the list has |
| StoreDashboard.NoFilterShowsActive | client/src/pages/StoreDashboard.tsx:35-38 | with no category and no term, every active product is shown |
| StoreDashboard.SearchMeaning | client/src/pages/StoreDashboard.tsx:38-40 | a non-empty term matches exactly when it occurs, lower-cased, in the lower-cased name or description |
| StoreDashboard.ActiveForUserMeaning | client/src/pages/StoreDashboard.tsx:26-32 | exactly the active promotions and announcements addressed to the user's type, in order |
| StoreDashboard.ActiveForUserKeepsCopies | client/src/pages/StoreDashboard.tsx:26-32 | every copy of an active item addressed to the user is shown and no copy of another item |
| StoreDashboard.Toggled | client/src/pages/StoreDashboard.tsx:110-111 | clicking the selected category deselects it, any other selects that one |
| StoreDashboard.ToggledTwice | client/src/pages/StoreDashboard.tsx:110-111 | two clicks on a category from none or from it return to the start |
| StoreDashboard.Dashboard.ClickCategory | client/src/pages/StoreDashboard.tsx:110-111 | the selection becomes `Toggled`; the term is kept |
| StoreDashboard.Dashboard.ClearCategory | client/src/pages/StoreDashboard.tsx:139 | the badge drops the selection |
| StoreDashboard.Dashboard.SetSearchTerm | client/src/pages/StoreDashboard.tsx:128 | the term is set, the selection kept |
| StoreDashboard.Dashboard.ClearFilters | client/src/pages/StoreDashboard.tsx:163-166 | no category and no term, so every active product is shown |
| ProductModal.CarouselWraps | client/src/components/ProductModal.tsx:44-54 | from an index in range, next and previous stay in range and undo each other |
| ProductModal.CarouselIsModular | client/src/components/ProductModal.tsx:44-54 | next is +1 and previous is −1, modulo the image count |
| ProductModal.StaleIndexRunsAway | client/src/components/ProductModal.tsx:44-54 | for every index at or beyond the image count (kept from a product with more images), "next" moves it one further out instead of wrapping and "previous" moves it one back |
| ProductModal.ColorsMeaning | client/src/components/ProductModal.tsx:29-33 | offered colours are exactly the product's, in order; a colour with the chosen id is selected, offered or not; with no colour of that id the first offered is selected; none is selected only when no colour has the id and none is offered |
| ProductModal.UnitPriceMeaning | client/src/components/ProductModal.tsx:59-61 | a restaurant pays base price; others pay base × the first active table of their type, or × 1 when none or 0 |
| ProductModal.SeededStorePaysBase | client/src/components/ProductModal.tsx:59-61 | with the seeded pricing tables a store pays the base price (the first store table has multiplier 1), and so does a restaurant |
| ProductModal.ModalState.SyncDefaultColor | client/src/components/ProductModal.tsx:40-42 | with nothing chosen, the first offered colour is chosen |
| ProductModal.ModalState.ChangeImage | client/src/components/ProductModal.tsx:44-54 | the index moves to next or previous and stays in range when it was |
| ProductModal.ModalState.SelectImage | client/src/components/ProductModal.tsx:188-198 | a thumbnail click shows the image at its index, in range; quantity and colour are kept |
| ProductModal.ModalState.DecreaseQuantity | client/src/components/ProductModal.tsx:244-245 | one less, never below 1 |
| ProductModal.ModalState.IncreaseQuantity | client/src/components/ProductModal.tsx:255 | one more |
| ProductModal.ModalState.AddToCart | client/src/components/ProductModal.tsx:56-74 | without a selected colour nothing happens; otherwise one ADD_ITEM with product, colour, quantity and unit price |
| ProductForm.ToggleMeaning | client/src/components/ProductFormModal.tsx:103-108 | a toggle flips whether the id is chosen and no other id's; toggling twice restores membership, and the list when the id was absent |
| ProductForm.WithoutIndexMeaning | client/src/components/ProductFormModal.tsx:98-100 | removing a field drops exactly the entry at the index and keeps the others in order |
| ProductForm.WithoutIndexOutside | client/src/components/ProductFormModal.tsx:98-100 | an index outside the list removes nothing |
| ProductForm.ImageFieldEdits | client/src/components/ProductFormModal.tsx:88-100 | editing a field changes only it; an added empty field is removed again by removing the last field |
| ProductForm.Form.Reset | client/src/components/ProductFormModal.tsx:34-56 | the form is the product's fields, or one empty image, no colours, active |
| ProductForm.Form.ChangeImage | client/src/components/ProductFormModal.tsx:88-92 | replaces the entry at the index |
| ProductForm.Form.AddImageField | client/src/components/ProductFormModal.tsx:94-96 | appends one empty field |
| ProductForm.Form.RemoveImageField | client/src/components/ProductFormModal.tsx:98-101 | removes the entry at the index |
| ProductForm.Form.ToggleColor | client/src/components/ProductFormModal.tsx:103-108 | toggles the colour id |
| ProductForm.Form.Submit | client/src/components/ProductFormModal.tsx:58-75 | updates the edited product with the form, or adds a new one; persists the product list (remote, or local when the remote write throws); the other collections, the loading flag and the error are unchanged |
| ProductForm.SubmitEditMeaning | client/src/components/ProductFormModal.tsx:63-64 | an edit gives the product the form's fields and keeps id and creation time; an unchanged form only refreshes `updatedAt` |
| SpaRedirect.Split | docs/spa-redirect.js:17-18 | `split` gives at least one piece and no piece holds the separator |
| SpaRedirect.JoinSplit | docs/spa-redirect.js:18-19 | joining the split pieces gives the string back |
| SpaRedirect.SplitFirst | docs/spa-redirect.js:18-19 | a pair splits at its first separator |
| SpaRedirect.Escape | docs/spa-redirect.js:19 | the encoding leaves no `&` |
| SpaRedirect.UnescapeEscape | docs/spa-redirect.js:19 | unescaping undoes the encoding of text without `~` |
| SpaRedirect.PairAtFirstEquals | docs/spa-redirect.js:18-19 | the key is what precedes the first `=` and the value, unescaped, is the rest with later `=` kept |
| SpaRedirect.PairWithoutEquals | docs/spa-redirect.js:18-19 | a pair without `=` has itself as key and the empty value |
| SpaRedirect.QueryLastWins | docs/spa-redirect.js:16-20 | a key is present exactly when some pair has it, with the value of the last such pair |
| SpaRedirect.ParseQuery | docs/spa-redirect.js:16-20 | the loop builds the query object of the pairs |
| SpaRedirect.RewriteRestoresRoute | docs/spa-redirect.js:21-26 | a route and query without `~`, encoded as `?p=…&q=…` with `&` escaped, are rebuilt after the base path |
| SpaRedirect.EncodedQueryDecodes | docs/spa-redirect.js:16-20 | the encoded query parses back to the route and query, `&` in either included |
| SpaRedirect.Page.RestoreRedirect | docs/spa-redirect.js:4-10 | the saved route is always deleted and replaces the address only when present, non-empty and different; when nothing is replaced the address parts are unchanged |
| SpaRedirect.Page.RewriteFromQuery | docs/spa-redirect.js:13-28 | with a search holding `p`, the address becomes the rebuilt one; otherwise it is unchanged |

## Left out

- The remote client (client/src/lib/github.ts) is not part of this model: HTTP, base64 and the contents API become a map that may throw, with each throw an input.
- Messaging (client/src/lib/whatsapp.ts) is not part of this model: only what is handed to it, the lines, user and total, is modelled.
- Float rounding: prices and multipliers are `real`.
- `StoreDashboard.Lower`: `toLowerCase` is modelled for ASCII and U+00C0–U+00DE only; letters outside those ranges (Latin Extended such as Ā, Ł, Œ, Ÿ, and other scripts) are left unchanged, and length-changing mappings such as `İ` are not modelled.
- JSON of the wrong shape (say an object where an array is expected) reads as an empty collection or no session user.
- An empty string stored under a key is treated like any other stored value; the source treats it as absent.
- Async interleaving, stale closures and concurrent sessions: each operation is atomic.
- The order of the six remote reads is not modelled: which of them throws first has no effect, since all collections then come from local storage.
- `initializeDefaultUsers` is launched without awaiting it on mount; the model runs it to completion right after the session is restored.
- Ids (`Date.now()`, `crypto.randomUUID()`) and timestamps are parameters; their uniqueness is assumed where a lemma needs it (`Cart.ReduceKeepsUniqueIds`).
- A `localStorage.setItem` that throws in the fallback (quota) is not modelled.
- The not-found page that produces `?p=…&q=…` is not in the source; `SpaRedirect.Escape` is its reference encoding, used only as a partner of `Unescape`.
- `SpaRedirect.Page.RewriteFromQuery`: `history.replaceState` is modelled as setting `href`; `pathname`, `search` and `hash` are not re-derived from it.
- `SpaRedirect.Page.RestoreRedirect`: when the saved route replaces the address, `pathname`, `search` and `hash` are not re-derived from the new address, so the model does not say what the second script then reads; it states them only when nothing was replaced.
- `ProductModal.LineFor`: a product with no images gives the empty string as image; the source passes `undefined`.
- Toasts, dialogs closing, and the form's own loading flag are presentation.
- JavaScript object keys with special meaning (`__proto__`) in the query parser.
- The WhatsApp order button inside the product dialog (client/src/components/ProductModal.tsx:76-92) repeats the price rule of add-to-cart and hands the line to messaging; only the price rule is modelled.
