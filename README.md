# Storefront sale listing, cart checkout and auth session — a Dafny model

This project models the deterministic logic of a small storefront and proves properties about it:

- **Sale-listing aggregator** (`apps/api/src/routes/sale.ts`). The catalog's four tables are sequences of records. `GET /` runs one joined query: products inner-joined with sale prices, then left-joined with product metadata and sale categories. The join is modelled as a nested comprehension in table order. Each joined row is mapped to a `SaleProduct`, with the falsy-coalescing defaults written out. The array of records is then sorted in place by an insertion sort, proved stable and proved equal to a functional specification. `GET /shop` returns the product table. A data-access fault becomes a parameter, and its 500 response is modelled.
- **Cart page and checkout** (`apps/web/src/pages/Cart.tsx`). Subtotal, tax and total are pure functions over `real` money. So are the CVV check, the quantity-button redirect and the purchase request. The page's state is a class, `CartPage.Cart`, and `handleCheckout` is its methods: the auth gate, the CVV check, the state reset and request, then success (cart cleared) or failure. The purchase service's answer is a parameter. What the page dispatches to the cart context, the navigations it asks for and the requests it submits are kept as logs.
- **Auth session** (`apps/web/src/context/AuthContext.tsx`). The provider is a class. The browser's key-value store is a `map<string, string>` field. Initialisation, `verifyAuth`, `login`, `register` and `logout` are its methods. Two reload scenarios show that storage alone decides the session a fresh provider starts with.
- **Sale page** (`apps/web/src/pages/Sale.tsx`). The `loading`/`error`/`products` state and the fetch that updates it, the render decision (nothing, error view, empty notice, grid) and each card's savings.
- **Promo banner** (`apps/web/src/components/PromoBanner.tsx`). The rule that decides the reserved height and whether the offer is visible.

Modules: `Wrappers` (Option), `SeqUtil` (filter and flat-map), `Catalog` (tables, join, row transform), `PrioritySort` (the stable sort), `SaleRoute` (the two handlers), `CartPage`, `AuthContext`, `SalePage`, `PromoBanner`.

Points where the code behaves differently from what a reader might expect:

- The CVV check looks at length only, not at the characters. `"abc"` is accepted (`CartPage.CvvExamples`). Length is JavaScript's `length`, in UTF-16 code units, so two emoji pass as four code units.
- `verifyAuth` never clears an authenticated session. If the stored user text does not parse, the exception leaves `isLoading` on.
- Nothing in the query limits a product to one sale-price or metadata row. The query emits one row per combination, and so does the model. Every combination is present (`Catalog.JoinComplete`, `Catalog.MetadataJoined`, `Catalog.CategoryJoined`). A row whose sale category names a category never lacks that category's description (`Catalog.JoinSound`). When product ids and category names are unique and a product has at most one sale-price row and at most one metadata row, each product on sale is listed exactly once (`SaleRoute.ListedOnce`). The table schema is not part of this model, so these keys are a hypothesis of that lemma.
- A rejected purchase shows its message, or "Failed to process checkout" when the message is empty.
- Nothing guards the sale page against a stale fetch response. Each fetch is one atomic step.

## Model

| member | source | states |
|---|---|---|
| Catalog.SaleJoin | apps/api/src/routes/sale.ts:52-61 | The join of an empty product table is empty. |
| Catalog.LeftJoin | apps/api/src/routes/sale.ts:54-61 | A left join pairs a row with every matching row, or with exactly one NULL when nothing matches. The result is never empty. |
| Catalog.OrNull | apps/api/src/routes/sale.ts:70-74 | `v \|\| null` on a nullable string is null exactly for null and for the empty string, and otherwise returns the value itself. |
| Catalog.Normalize | apps/api/src/routes/sale.ts:66-75 | The mapped record keeps the product columns and the sale price. It is tagged "Sale" with `originalPrice = price`. `discount`, `saleCategory` and `categoryDescription` are coalesced to null. `featured` holds only for a stored true. `priority` defaults to 0. |
| Catalog.NormalizeAll | apps/api/src/routes/sale.ts:66 | One mapped record per joined row, at the same position. |
| Catalog.JoinSound | apps/api/src/routes/sale.ts:34-61 | Every joined row carries the columns of a product in the table and of one of that product's sale-price rows. A product without a metadata row gets NULL in every metadata-derived column. A product with metadata rows gets the discount, sale category, featured flag and priority of one of them. A category description comes from a category whose name is the row's sale category, and a row whose sale category names a category of the table always carries such a category's description. |
| Catalog.SaleRowsSound | apps/api/src/routes/sale.ts:54-61 | The rows for a product and one of its sale prices carry their columns. They get NULL metadata columns when the product has no metadata row, and the metadata columns of one of its metadata rows otherwise. A category description comes from the category the sale category names, and is never missing when the sale category names a category of the table. |
| Catalog.MetadataRowsSound | apps/api/src/routes/sale.ts:58-61 | The rows for one metadata partner carry the product and sale-price columns. They are all-NULL in the metadata columns when the partner is NULL, and carry the partner's columns otherwise. A category description comes from a category whose name is the partner's sale category, and is present whenever the partner names a category of the table. |
| Catalog.RowJoined | apps/api/src/routes/sale.ts:52-61 | A row built from a product, one of its sale prices and partners the two left joins offer is a row of the query. |
| Catalog.JoinComplete | apps/api/src/routes/sale.ts:52-53 | Every product paired with one of its sale-price rows yields at least one joined row, whatever the metadata and category tables hold. |
| Catalog.MetadataJoined | apps/api/src/routes/sale.ts:54-61 | Every metadata row of a product with a sale price yields a joined row carrying the product, that sale price and that metadata. When no category bears the name the metadata gives, the row's category description is NULL. |
| Catalog.CategoryJoined | apps/api/src/routes/sale.ts:58-61 | A metadata row naming a category of the table yields a joined row carrying that category's name and description. |
| Catalog.MetadataRowsOne | apps/api/src/routes/sale.ts:58-61 | With unique category names, one metadata partner yields exactly one row: its category, or NULL when none matches. |
| Catalog.SaleRowsOne | apps/api/src/routes/sale.ts:54-61 | Under the keys, a product and one of its sale prices yield exactly one row. |
| Catalog.ProductRowsCount | apps/api/src/routes/sale.ts:52-61 | Under the keys, a product yields one row when it is on sale and none otherwise. |
| Catalog.ProductRowsIds | apps/api/src/routes/sale.ts:52-53 | Every row of a product carries that product's id. |
| Catalog.RowsOfId | apps/api/src/routes/sale.ts:52-61 | Under the keys, the rows of a list of products that carry a given id number one when a product of the list has that id and is on sale, and none otherwise. |
| Catalog.JoinOncePerProduct | apps/api/src/routes/sale.ts:52-61 | Under the keys, the query returns exactly one row for each product on sale. |
| Catalog.NormalizeIdCount | apps/api/src/routes/sale.ts:66 | Mapping rows to records keeps how many carry a given id. |
| PrioritySort.WithPriorityHas | apps/api/src/routes/sale.ts:78 | A record belongs to the class of records with its own priority. |
| PrioritySort.WithPriorityFrom | apps/api/src/routes/sale.ts:78 | A priority class holds only records of the sequence that have that priority. |
| PrioritySort.WithPriorityAppend | apps/api/src/routes/sale.ts:78 | A priority class of a concatenation is the concatenation of the classes. |
| PrioritySort.Insert | apps/api/src/routes/sale.ts:78 | One insertion step lengthens the sequence by one and holds exactly the inserted record and the old ones. |
| PrioritySort.StableSort | apps/api/src/routes/sale.ts:78 | The specification sort keeps the length and holds exactly the input's records. |
| PrioritySort.StableSortStep | apps/api/src/routes/sale.ts:78 | Sorting a prefix one record longer inserts that record into the sort of the shorter prefix. |
| PrioritySort.InsertPermutes | apps/api/src/routes/sale.ts:78 | One insertion step adds exactly the inserted record. |
| PrioritySort.InsertSorted | apps/api/src/routes/sale.ts:78 | One insertion step keeps the sequence sorted by descending priority. |
| PrioritySort.InsertKeepsTies | apps/api/src/routes/sale.ts:78 | Inserting into a sorted sequence appends the record to the end of its own priority class and leaves every other class unchanged. |
| PrioritySort.StableSortCorrect | apps/api/src/routes/sale.ts:78 | The sort's result is sorted non-increasingly by priority, is a permutation of its input, and keeps input order among equal priorities. |
| PrioritySort.StableSortUnique | apps/api/src/routes/sale.ts:78 | Any two sorted sequences with the same tie order are equal, so any stable descending sort returns the specification's sequence. |
| PrioritySort.InsertBelow | apps/api/src/routes/sale.ts:78 | A bound on every priority of a sequence and on the inserted record bounds every priority after insertion. |
| PrioritySort.InsertAheadKeepsTies | apps/api/src/routes/sale.ts:78 | A record placed ahead of a sorted sequence ranked wholly below it ends its own priority class, which was empty before. |
| PrioritySort.ClassAboveHeadEmpty | apps/api/src/routes/sale.ts:78 | A sorted sequence holds no record ranked above its first. |
| PrioritySort.SameHead | apps/api/src/routes/sale.ts:78 | Two sorted sequences with the same priority classes start with the same record. |
| PrioritySort.SameTailTies | apps/api/src/routes/sale.ts:78 | Dropping a common first record keeps the priority classes equal. |
| PrioritySort.HeadPriority | apps/api/src/routes/sale.ts:78 | Two sorted sequences with the same priority classes start with the same priority. |
| PrioritySort.InsertAt | apps/api/src/routes/sale.ts:78 | In a sorted sequence, insertion places the record just before the first record of lower priority. |
| PrioritySort.InsertPoint | apps/api/src/routes/sale.ts:78 | Insertion puts a record after those of the sorted prefix ranked at least as high and before those ranked lower. |
| PrioritySort.InsertedAtGap | apps/api/src/routes/sale.ts:78 | The array contents the inner loop leaves, with the record in the gap, are the insertion of that record into the sorted prefix. |
| PrioritySort.SortByPriority | apps/api/src/routes/sale.ts:78 | The in-place sort leaves the array equal to the stable sort of its old contents. That result is sorted, a permutation of the input, and keeps tie order. |
| PrioritySort.InsertLast | apps/api/src/routes/sale.ts:78 | One pass of the in-place sort turns a sorted prefix plus the next record into their insertion, and leaves the rest of the array untouched. |
| PrioritySort.OpenGap | apps/api/src/routes/sale.ts:78 | The inner loop shifts the trailing records ranked below the inserted one right by one place, leaves the rest unchanged, and stops just after a record ranked at least as high. |
| SaleRoute.CatalogStore.constructor | apps/api/src/routes/sale.ts:34 | A store holds the given tables and has answered no queries. |
| SaleRoute.CatalogStore.SelectSaleRows | apps/api/src/routes/sale.ts:34-61 | The joined query counts as one query and returns the join of the tables, or a fault. |
| SaleRoute.CatalogStore.SelectProducts | apps/api/src/routes/sale.ts:103 | The product select counts as one query and returns the product table, or a fault. |
| SaleRoute.SaleListing | apps/api/src/routes/sale.ts:66-78 | The listing has one record per joined row. |
| SaleRoute.GetSale | apps/api/src/routes/sale.ts:15-98 | Exactly one query is sent, whatever the catalog's size. A fault answers 500 "Failed to fetch sale products" and no records. Otherwise the body is the stably sorted mapped join. |
| SaleRoute.GetShop | apps/api/src/routes/sale.ts:100-111 | The body is the product table, unfiltered and in table order, or 500 "Failed to fetch shop products" on a fault. |
| SaleRoute.ListingHasMappedRows | apps/api/src/routes/sale.ts:66-78 | The listing holds exactly the mapped joined rows. |
| SaleRoute.SortedHasMappedRows | apps/api/src/routes/sale.ts:66-78 | Sorting the mapped rows of any query result neither adds nor drops a record. |
| SaleRoute.ListingMembership | apps/api/src/routes/sale.ts:52-53 | A product id is listed if and only if that product has a sale-price row. |
| SaleRoute.ListedHasSale | apps/api/src/routes/sale.ts:52-53 | A listed record's product exists and has a sale-price row. |
| SaleRoute.SaleIsListed | apps/api/src/routes/sale.ts:52-53 | A product with a sale-price row has a listed record. |
| SaleRoute.ListingEmptyWithoutSales | apps/api/src/routes/sale.ts:52-53 | With no sale-price rows the listing is empty, not an error. |
| SaleRoute.ListingRecord | apps/api/src/routes/sale.ts:66-75 | Every listed record is tagged "Sale", and has `originalPrice` equal to its product's `price`. Its other product columns and its sale price come from one product and one of its sale-price rows. |
| SaleRoute.ListingDefaults | apps/api/src/routes/sale.ts:54-57 | A listed product with no metadata row has null discount, null sale category, featured false, priority 0 and null category description. |
| SaleRoute.ListingMetadata | apps/api/src/routes/sale.ts:54-73 | A listed product that has metadata rows has the coalesced discount and sale category, the featured flag and the defaulted priority of one of them. |
| SaleRoute.JoinedMetadata | apps/api/src/routes/sale.ts:54-57 | A joined row of a product with metadata carries the columns of one of its metadata rows. |
| SaleRoute.ListingCategory | apps/api/src/routes/sale.ts:58-74 | A listed category description is the description of a category whose name is the record's sale category. |
| SaleRoute.ListingNamedCategory | apps/api/src/routes/sale.ts:58-74 | A listed record whose sale category names a category of the table shows the coalesced description of a category with that name. |
| SaleRoute.ListedOnce | apps/api/src/routes/sale.ts:52-78 | Under the keys, each product on sale appears exactly once in the listing. |
| SaleRoute.MetadataListed | apps/api/src/routes/sale.ts:54-73 | Every metadata row of a product on sale appears in the listing: some record of that product and sale price carries its coalesced discount and sale category, its featured flag and its defaulted priority. |
| SaleRoute.CategoryListed | apps/api/src/routes/sale.ts:58-74 | A product on sale whose metadata names a category of the table is listed with that category's coalesced description. |
| SaleRoute.ListingOrder | apps/api/src/routes/sale.ts:78 | The listing is sorted non-increasingly by priority, is a permutation of the mapped rows, and keeps query order among equal priorities. |
| CartPage.QuantityAction | apps/web/src/pages/Cart.tsx:36-40 | A quantity below one gives a removal of that id. Otherwise the action sets that id to that quantity, which is at least one. The handler never clears the cart. |
| CartPage.QuantityRedirect | apps/web/src/pages/Cart.tsx:34-41 | A requested quantity below one dispatches a removal of the line, and any other quantity dispatches that quantity. No dispatched update sets a quantity below one. |
| CartPage.DecrementLastUnitRemoves | apps/web/src/pages/Cart.tsx:254-256 | The minus button on a line holding one unit dispatches a removal of the line. |
| CartPage.Subtotal | apps/web/src/pages/Cart.tsx:48-51 | The subtotal of a cart whose lines have non-negative prices and quantities is non-negative. |
| CartPage.SubtotalAppend | apps/web/src/pages/Cart.tsx:48-51 | The subtotal is additive: two carts laid end to end sum their subtotals. |
| CartPage.Tax | apps/web/src/pages/Cart.tsx:52 | Tax is a tenth of the subtotal, and lies between 0 and the subtotal when the subtotal is non-negative. |
| CartPage.Total | apps/web/src/pages/Cart.tsx:53 | The total is eleven tenths of the subtotal, and not below a non-negative subtotal. |
| CartPage.CartTotal | apps/web/src/pages/Cart.tsx:48-53 | A cart's total is eleven tenths of its subtotal. With non-negative prices and quantities it is at least the subtotal, which is non-negative. |
| CartPage.TotalsRelation | apps/web/src/pages/Cart.tsx:48-53 | Tax is total minus subtotal, and the total is eleven tenths of the subtotal and never below it. |
| CartPage.TotalsExample | apps/web/src/pages/Cart.tsx:48-53 | A single line priced 10.00 with quantity 2 gives subtotal 20, tax 2 and total 22. |
| CartPage.Utf16Length | apps/web/src/pages/Cart.tsx:56 | A string's length in UTF-16 code units lies between its character count and twice it. It equals the character count when no character lies outside the Basic Multilingual Plane. |
| CartPage.ValidateCvv | apps/web/src/pages/Cart.tsx:55-65 | A CVV is accepted if and only if its UTF-16 length is 3 or 4. A rejection carries "CVV must be 3 or 4 digits" and an acceptance no error. |
| CartPage.CvvExamples | apps/web/src/pages/Cart.tsx:55-65 | "12" is rejected with the message. "123" is accepted, and so is "abc". Two emoji are accepted as four code units; three are rejected as six. |
| CartPage.FormatItems | apps/web/src/pages/Cart.tsx:115-120 | The request has one entry per cart line, in cart order, carrying id, name, price and quantity. |
| CartPage.RequestMatchesCart | apps/web/src/pages/Cart.tsx:115-125 | Pricing the request's entries gives back the cart's subtotal, and the request total is that plus ten percent. |
| CartPage.Cart.constructor | apps/web/src/pages/Cart.tsx:20-32 | A page starts idle: not checking out, no error, no transaction, no success, empty CVV, nothing dispatched or sent. |
| CartPage.Cart.View | apps/web/src/pages/Cart.tsx:159-396 | After a purchase the page shows the confirmation with the transaction id. Otherwise an empty cart shows the empty-cart view, and a non-empty one the cart form. The form shows the checkout and validation errors when they are non-empty, the subtotal, a tax of one tenth and a total that is their sum. Its button is disabled and reads "Processing..." exactly while checking out. |
| CartPage.Cart.EditCvv | apps/web/src/pages/Cart.tsx:67-73 | Typing sets the CVV field. |
| CartPage.Cart.UpdateQuantity | apps/web/src/pages/Cart.tsx:34-41 | Exactly the redirected quantity action is dispatched. |
| CartPage.Cart.RemoveItem | apps/web/src/pages/Cart.tsx:43-46 | Exactly a removal of that id is dispatched. |
| CartPage.Cart.BeginCheckout | apps/web/src/pages/Cart.tsx:75-137 | A purchase starts if and only if the user is authenticated and the CVV passes. Signed out: one redirect to /login from /cart and no validation. Bad CVV: the validation error and nothing else. Otherwise the checkout state is reset and exactly one request for the cart's lines and total is sent with the token. |
| CartPage.Cart.CompleteCheckout | apps/web/src/pages/Cart.tsx:139-156 | Acceptance records the purchase id, sets success and dispatches one cart clear. Rejection sets the message, or "Failed to process checkout", and leaves the cart alone. Either way checking out ends. |
| CartPage.Cart.HandleCheckout | apps/web/src/pages/Cart.tsx:75-157 | The whole handler. Signed out: one redirect and no change to the error, transaction or success state. Signed in: no navigation. Bad CVV: the validation error, with the transaction untouched. Otherwise one request is sent, a successful purchase ends on the confirmation view with its id, a rejected one leaves its message on the cart form, and checking out is off once the purchase settles. |
| CartPage.Cart.ClickCheckout | apps/web/src/pages/Cart.tsx:388-396 | A click while a purchase is in flight does nothing: error, transaction, success and requests are unchanged, so at most one request is in flight. Otherwise the click runs the handler. It starts a purchase if and only if the user is signed in and the CVV passes. Signed out, it redirects to /login and leaves the validation error alone. Signed in, it does not navigate. With a bad CVV it shows the CVV error. When nothing starts, the checkout state and requests are unchanged, so a bad CVV leaves the button enabled. A start resets the checkout state and sends one request. |
| CartPage.CheckoutWithSession | apps/web/src/pages/Cart.tsx:133-137 | Checking out under a consistent auth session sends at most one request. It sends one exactly when the session is authenticated and the CVV passes, and that request carries the session's token, which is present. |
| AuthContext.Get | apps/web/src/context/AuthContext.tsx:40-41 | A stored key yields its value, and a missing key yields null. |
| AuthContext.AuthProvider.constructor | apps/web/src/context/AuthContext.tsx:21-29 | The token is the stored token, authenticated holds if and only if a non-empty token is stored, loading is on and there is no user and no error. The session starts consistent: authenticated implies a token, and every method keeps that. |
| AuthContext.AuthProvider.VerifyAuth | apps/web/src/context/AuthContext.tsx:34-50 | When both keys hold values, the token, user and authenticated flag are taken from storage. Otherwise nothing but loading changes, and loading ends off. An unparsable stored user leaves loading on. |
| AuthContext.AuthProvider.Login | apps/web/src/context/AuthContext.tsx:55-77 | Success sets user, token and authenticated and writes both keys. Failure sets the message, or "Login failed", rethrows, and leaves session and storage unchanged. Loading ends off. |
| AuthContext.AuthProvider.Register | apps/web/src/context/AuthContext.tsx:79-94 | After a successful registration, logs in with the same credentials. Any failure leaves the session unchanged, rethrows, and sets its message or "Registration failed". Loading ends off. |
| AuthContext.AuthProvider.Logout | apps/web/src/context/AuthContext.tsx:96-102 | User and token become null, authenticated false, and both keys are removed. |
| AuthContext.ReloadAfterLogin | apps/web/src/context/AuthContext.tsx:22-27 | After a login with a non-empty token, a freshly mounted provider starts authenticated. |
| AuthContext.ReloadAfterLogout | apps/web/src/context/AuthContext.tsx:96-102 | After a logout, a freshly mounted provider starts unauthenticated and verification cannot authenticate it. |
| SalePage.Savings | apps/web/src/pages/Sale.tsx:30-35 | Sale price plus savings is the original price. Savings are positive if and only if the sale price is lower. |
| SalePage.CardOf | apps/web/src/pages/Sale.tsx:83-134 | A card shows its record's id, name, featured flag, description, original and sale prices. The category badge shows exactly when the sale category is non-empty, and then shows it. Sale price plus savings is the original price. The image is the record's when non-empty and the placeholder otherwise. |
| SalePage.Cards | apps/web/src/pages/Sale.tsx:82-134 | One card per record, in listing order. |
| SalePage.ListingCardSavings | apps/web/src/pages/Sale.tsx:30-35 | For the listing the API serves, each card's savings are its product's catalog price less one of its sale prices. |
| SalePage.Sale.constructor | apps/web/src/pages/Sale.tsx:8-10 | The page starts loading, with no records and no error. |
| SalePage.Sale.View | apps/web/src/pages/Sale.tsx:38-76 | The checks run in order: loading shows nothing, then an error shows the error view with its message, then an empty list shows the no-items notice. Otherwise the grid shows a card for every record. |
| SalePage.Sale.FetchSaleProducts | apps/web/src/pages/Sale.tsx:12-24 | Success replaces the records and clears the error. Failure sets "Failed to load sale products. Please try again." and keeps the records. Loading ends off, and the resulting view follows. |
| SalePage.Sale.Retry | apps/web/src/pages/Sale.tsx:48-49 | The error view's retry runs the fetch again, with the same outcomes. |
| PromoBanner.Render | apps/web/src/components/PromoBanner.tsx:7-17 | The container always renders. The offer shows if and only if auth is not loading and the visitor is not authenticated. The reserved height is "0px" when authenticated and "48px" otherwise. |
| PromoBanner.OfferHiddenWhileLoading | apps/web/src/components/PromoBanner.tsx:12 | While auth is loading the offer never shows. |
| PromoBanner.HeightIgnoresLoading | apps/web/src/components/PromoBanner.tsx:10 | The reserved height is the same whether or not auth is loading. |
| PromoBanner.OfferHasReservedSpace | apps/web/src/components/PromoBanner.tsx:8-12 | The offer only shows inside its reserved 48px. |
| PromoBanner.BannerAtMount | apps/web/src/components/PromoBanner.tsx:4-12 | Under a freshly mounted auth provider the offer is hidden. The height already matches the stored token. |

## Left out

- SQL execution, the ORM and the Express server are not modelled. The join is stated over sequences. Rows come out in nested-loop table order, while a database may return them in any order. A fault is a parameter.
- Error telemetry, spans and console logging are not modelled: they do not affect state.
- Floating point is not modelled. Prices are `real`, and the decimal strings the source parses are taken as their values. `toFixed(2)` formatting is left out.
- SalePage.Savings: does not model the percentage badge, because it is a rounded float ratio that divides by the original price (undefined for a price of 0).
- CartPage.QuantityAction: the source dispatches `REMOVE_ITEM` and `UPDATE_QUANTITY` with the id as a string (`item.id.toString()`), and the model keeps the integer id. Whether the cart reducer, which is not part of this model, matches that string against numeric ids decides whether the line really goes. The model promises only the dispatched action.
- CartPage.FormatItems: the request carries the numeric total rather than its two-decimal string, and product ids are integers already, so `parseInt` of a string id is not modelled.
- Async timing is not modelled. This covers the 1500 ms delay in `verifyAuth`, interleaved awaits and stale fetch responses. Each asynchronous call is one atomic step whose outcome is a parameter.
- The cart reducer (`CartContext`) and the purchase, auth and product service modules are not part of this model. The page's effect on the cart is the log of dispatched actions, and services answer through outcome parameters. So the cart becoming empty after a successful purchase is stated as one `CLEAR_CART` dispatch.
- `JSON.parse` and `JSON.stringify` of the stored user are not modelled. The stored text is the user. A parse failure is the `userParses` parameter of `VerifyAuth`.
- Markup, styling, routing, the remaining form fields (card number, name, expiry), the error boundary and the browser test scripts are not modelled.
