# market-hub point of sale, modelled in Dafny

market-hub is a point-of-sale web application. A cashier scans bar codes into an
in-progress sale (the cart), adjusts quantities, takes the cash and records the payment.
Administrators manage users and products through JSON routes. This project models that
core:

- the client-side sale store, with its running total;
- the decisions the cart, search and checkout handlers of the UI make;
- the request-decision layer of the sales, users and products routes, in both the app
  router (`/api/v1/...`) and the older pages router (`/api/...`);
- the authentication helpers, the route-gating middleware and the user-agent label.

Modelling conventions:

- Money is integer cents.
- A JavaScript number that `parseInt` produces is `Js.JsNumber`, either `NaN` or an
  integer. `parseInt` itself is written out, both with radix 10 and with no radix (in which
  case a `0x` prefix means hex).
- `x || d` is `Js.OrDefault`: an empty string counts as missing. A destructuring default is
  `Js.Defaulted`: only an absent value takes the default.
- The database is a sequence (or a map) of rows passed in and handed back.
- Whether a database call succeeds is a `dbOk` parameter. A failure gives 500.
- Ids, clocks, password hashing and date parsing are parameters: `newId`, `now`, `hash`,
  `dateOf`.
- A React event handler is one transition on the component's state, as it stood when the
  handler started.

Modules, one file each:

- `js.dfy`: JavaScript value semantics.
- `schema.dfy`: the rows and enums.
- `http.dfy`: fetch results.
- `api.dfy`: replies and error strings.
- `pagination.dfy`: page validation, offset, counts, `totalPages`, the `skip`/`take` window.
- `cart.dfy`: the sale store `src/state/sales.ts`, as specification functions plus the
  `SalesStore` class.
- `products_table.dfy`: the quantity buttons.
- `barcode_lookup.dfy`: what the three search components share.
- `search_input_legacy.dfy`, `search_input_app.dfy`, `search_input_current_sale.dfy`: the
  three search components.
- `search_form_action.dfy`: the search form action.
- `checkout_legacy.dfy`: the older checkout panel.
- `checkout_panel.dfy`: the newer checkout panel.
- `auth.dfy`: the authentication helpers.
- `middleware.dfy`: the route-gating middleware.
- `user_agent.dfy`: the user-agent label.
- `sales_v1.dfy`, `sales_pages.dfy`, `users_v1.dfy`, `users_pages.dfy`, `products_v1.dfy`,
  `products_pages.dfy`: the route handlers.

The sale store, the two checkout panels and the products table update state in place in
the source, so they are classes. Their methods are proved against the specification
functions, and the properties are proved as lemmas about those functions. Everything else
is stated as functions and lemmas, except the v1 sales listing: it builds its conditions by
successive pushes, so it is a method.

## Model

| member | source | states |
|---|---|---|
| Cart.CalculateTotal | src/state/sales.ts:21-26 | the total is the sum of (price or 0) × quantity over the items; it is non-negative when every subtotal is |
| Cart.IndexOfProduct | src/state/sales.ts:35 | the index is -1 exactly when no item has the product, and otherwise the first item that has it |
| Cart.IndexOfItem | src/state/sales.ts:57 | the index is -1 exactly when no item has the id, and otherwise the first item with it |
| Cart.AddUpsertsByProduct | src/state/sales.ts:33-54 | scanning a product already in the sale adds one unit to that item, leaves every other item as it was, and raises the total by that item's stored unit price; a new product appends one item with quantity 1 for it and raises the total by its price; either way only the scanned product gains a unit |
| Cart.AddKeepsWellFormed | src/state/sales.ts:33-54 | adding keeps product ids unique and every quantity at least 1 |
| Cart.RepeatedScans | src/state/sales.ts:33-54 | N scans of one product, starting from an empty sale, give one item with quantity N and a total of N × price |
| Cart.IncreaseLaw | src/state/sales.ts:56-64 | an unknown id leaves the items unchanged; a known id adds one unit to the first item with it and to no other, and the total rises by its unit price |
| Cart.IncreaseKeepsWellFormed | src/state/sales.ts:56-64 | increasing keeps the sale well formed |
| Cart.ReduceLaw | src/state/sales.ts:65-80 | an unknown id leaves the items unchanged; for the first item with the id, a quantity above 1 goes down by one with every other item as it was, and a quantity of 1 deletes that item, the later items moving up by one; either way the total falls by its unit price and the unit count by one |
| Cart.ReduceKeepsWellFormed | src/state/sales.ts:65-80 | reducing keeps product ids unique and every remaining quantity at least 1 |
| Cart.RemoveLaw | src/state/sales.ts:81-84 | an item survives exactly when its id differs; with no match the items are unchanged |
| Cart.RemoveDistributes | src/state/sales.ts:81-84 | removal keeps the surviving items in order (it distributes over concatenation) |
| Cart.RemoveKeepsWellFormed | src/state/sales.ts:81-84 | removing keeps the sale well formed |
| Cart.SalesStore.constructor | src/state/sales.ts:28-32 | a new store has no items, total 0, CASH, and zero amount received and change |
| Cart.SalesStore.AddItemToSale | src/state/sales.ts:33-54 | the items become the upsert of the old items and the total stays their sum; the other fields are unchanged |
| Cart.SalesStore.IncreaseItemQuantity | src/state/sales.ts:56-64 | the items become the increase of the old items, with the total kept in step |
| Cart.SalesStore.ReduceItemFromSale | src/state/sales.ts:65-80 | the items become the decrement-or-delete of the old items, with the total kept in step |
| Cart.SalesStore.RemoveItemFromSale | src/state/sales.ts:81-84 | the items become the old items without that id, with the total kept in step |
| Cart.SalesStore.ClearSale | src/state/sales.ts:85 | items, total, amount received and change are zeroed; the payment method is unchanged |
| Cart.SalesStore.SetAmountReceived | src/state/sales.ts:86 | only the amount received changes |
| Cart.SalesStore.SetChange | src/state/sales.ts:87 | only the change changes |
| Cart.SalesStore.SetPaymentMethod | src/state/sales.ts:88 | only the payment method changes |
| ProductsTable.AddRequest | src/components/ProductsTableComponent.tsx:49-58 | the add button PUTs the item's current quantity plus 1, for that item of that sale |
| ProductsTable.SubtractRequest | src/components/ProductsTableComponent.tsx:72-86 | the subtract button DELETEs exactly when the quantity is at most 1; otherwise it PUTs the quantity minus 1, which is at least 1 |
| ProductsTable.RevalidationsAfter | src/components/ProductsTableComponent.tsx:37-40 | the sale's cache key is revalidated exactly when the response is ok |
| ProductsTable.TableAgreesWithStore | src/components/ProductsTableComponent.tsx:49-97 | on the server's items, the add and subtract requests do what the store's increase and reduce do |
| ProductsTable.SubtractUndoesAdd | src/components/ProductsTableComponent.tsx:49-97 | a subtract after an add requests the original quantity back |
| ProductsTable.DisplayedSubtotalSteps | src/components/ProductsTableComponent.tsx:134 | each button moves the displayed subtotal by exactly one unit price |
| ProductsTable.ProductsTableComponent.Send | src/components/ProductsTableComponent.tsx:29-46 | the request is recorded and loading is false afterwards, whatever the response |
| ProductsTable.ProductsTableComponent.DeleteItemFromSale | src/components/ProductsTableComponent.tsx:27-47 | one DELETE is sent, and the sale is revalidated only when the response is ok |
| ProductsTable.ProductsTableComponent.AddItemsToSale | src/components/ProductsTableComponent.tsx:49-70 | one add request is sent; loading is reset on every path |
| ProductsTable.ProductsTableComponent.SubstractItemsToSale | src/components/ProductsTableComponent.tsx:72-97 | one decrement-or-delete request is sent; loading is reset on every path |
| ProductsTable.ProductsTableComponent.ButtonsEnabled | src/components/ProductsTableComponent.tsx:138-162 | the three buttons are enabled exactly while no request is loading |
| BarcodeLookup.Classify | src/components/SearchInputComponent.tsx:40-50 | the lookup data is unreadable, empty, one match or several matches, each exactly when its condition holds |
| SearchInputLegacy.HandleSearchProduct | src/components/SearchInputComponent.tsx:23-69 | an empty barcode does nothing; several matches, or zero (where `data[0]` throws), send no add; otherwise the first product is added with quantity 1; revalidation and clearing happen exactly on an ok response |
| SearchInputLegacy.HandleKeyDown | src/components/SearchInputComponent.tsx:71-76 | only Enter searches |
| SearchInputApp.HandleSearchProduct | src/app/components/SearchInputComponent.tsx:17-53 | as the legacy search, but success is exactly status 201, and a non-2xx rejection ends in a throw |
| SearchInputApp.HandleKeyDown | src/app/components/SearchInputComponent.tsx:55-60 | only Enter searches |
| SearchInputCurrentSale.HandleSearchProduct | src/app/components/searchInput.tsx:12-50 | without an active sale nothing happens, before the barcode is looked at; the add goes to the current sale; on 201 the input is cleared and the current sale refetched |
| SearchInputCurrentSale.HandleKeyDown | src/app/components/searchInput.tsx:51-56 | only Enter searches |
| SearchInputCurrentSale.HasActiveSale | src/app/components/searchInput.tsx:14 | there is an active sale exactly when fetching it did not fail and it has a non-empty id |
| SearchFormAction.SearchProduct | src/components/SearchInput/formActions.ts:11-30 | an empty barcode asks for the start-sale callback; a found product gives `found` with it; none, or a throw, gives `not_found` |
| SearchFormAction.EmptyBarcodeIgnoresLookup | src/components/SearchInput/formActions.ts:16-19 | with an empty barcode the lookup's answer does not matter |
| CheckoutLegacy.DisplayTotal | src/components/CheckoutActionsComponent.tsx:35-37 | the sale's total, or 0 when there is none |
| CheckoutLegacy.IsAmountValid | src/components/CheckoutActionsComponent.tsx:39-41 | the amount is valid exactly when it covers the total |
| CheckoutLegacy.Change | src/components/CheckoutActionsComponent.tsx:39-45 | the change is never negative; when the amount covers the total, total + change = amount; otherwise it is 0 |
| CheckoutLegacy.NextSaleId | src/components/CheckoutActionsComponent.tsx:69-76 | the id of the sale that replaces the paid one, or empty when none is returned |
| CheckoutLegacy.CheckoutPanel.constructor | src/components/CheckoutActionsComponent.tsx:24-37 | the panel starts with nothing received, not ready and closed |
| CheckoutLegacy.CheckoutPanel.HandleConfirmPayment | src/components/CheckoutActionsComponent.tsx:47-79 | nothing is sent for an invalid amount; otherwise the PUT carries the amount, the change and CASH; on success the modal closes, the amount resets and the new sale replaces the old one; on failure nothing resets |
| CheckoutLegacy.CheckoutPanel.HandleOnKeyUp | src/components/CheckoutActionsComponent.tsx:91-110 | a non-Enter key clears readiness; Enter records the amount (NaN as 0) and, reading the previous render's flags, becomes ready or confirms |
| CheckoutLegacy.CheckoutPanel.OpenModal | src/components/CheckoutActionsComponent.tsx:121 | only the modal flag changes |
| CheckoutLegacy.CheckoutPanel.OnClose | src/components/CheckoutActionsComponent.tsx:132-135 | the modal closes and the amount received resets to 0 |
| CheckoutLegacy.EnterThreeTimes | src/components/CheckoutActionsComponent.tsx:91-110 | with something owed, the payment is sent on the third Enter and not before |
| CheckoutLegacy.EnterTwiceWithNothingOwed | src/components/CheckoutActionsComponent.tsx:91-110 | with nothing owed, the payment is sent on the second Enter |
| CheckoutPanel.CheckoutActions.constructor | src/components/CheckoutActions/CheckoutActionsComponent.tsx:8-22 | the panel starts not ready, closed and with no submission, over the given sale store |
| CheckoutPanel.CheckoutActions.SubmitEnabled | src/components/CheckoutActions/CheckoutActionsComponent.tsx:141 | the submit button is enabled exactly when the panel is ready and no submission is pending |
| CheckoutPanel.CheckoutActions.EnterKeyDown | src/components/CheckoutActions/CheckoutActionsComponent.tsx:96-150 | pressing Enter in the amount input submits the form, with the amount as typed, exactly when the submit button is enabled; nothing else changes |
| CheckoutPanel.CheckoutActions.HandleOnKeyUp | src/components/CheckoutActions/CheckoutActionsComponent.tsx:36-60 | Delete or Backspace clear readiness, amount and change; Enter records the amount (NaN as 0); an amount that covers the total makes the panel ready with change = amount − total, and a short amount leaves readiness and change alone; a submission happens only with a form, nothing pending and readiness already set |
| CheckoutPanel.CheckoutActions.OnPaymentState | src/components/CheckoutActions/CheckoutActionsComponent.tsx:25-33 | a success clears the sale, closes the modal and zeroes readiness, amount and change; any other status changes nothing |
| CheckoutPanel.CheckoutActions.OpenModal | src/components/CheckoutActions/CheckoutActionsComponent.tsx:72 | only the modal flag changes |
| CheckoutPanel.CheckoutActions.OnClose | src/components/CheckoutActions/CheckoutActionsComponent.tsx:83-86 | the modal closes and the amount received resets to 0; nothing else changes |
| CheckoutPanel.SecondEnterSubmits | src/components/CheckoutActions/CheckoutActionsComponent.tsx:45-56 | a covering amount entered twice makes the panel ready on the first Enter with nothing submitted; on the second, the browser submits the form with that amount and the keyup handler asks for one more submission |
| CheckoutPanel.ShortAmountIsSubmitted | src/components/CheckoutActions/CheckoutActionsComponent.tsx:48-56 | after a covering amount, an Enter on a short amount submits the form with that short amount, and the submit button stays enabled with the recorded amount below the total |
| Js.OrDefault | src/app/api/v1/sales/route.ts:14-16 | `s || d`: a missing or empty value gives the fallback, any other value is kept |
| Js.ParseIntOfIntToString | src/lib/auth.ts:70 | `parseInt(n.toString(), 10)` gives back n |
| Js.ParseIntAutoRadixOfIntToString | src/lib/auth.ts:63 | `parseInt(n.toString())` with no radix gives back n |
| Js.CeilDiv | src/app/api/v1/users/route.ts:53 | `Math.ceil(n / d)` is null exactly when d is NaN or 0, and otherwise the least number of pages of d rows that hold n |
| Pagination.Skip | src/app/api/v1/users/route.ts:30 | the offset is NaN exactly when page or limit is, and not negative for valid values |
| Pagination.Meta | src/app/api/v1/users/route.ts:47-55 | the meta block carries total, page and limit, and its totalPages is the least number of pages that hold the total |
| Pagination.Count | src/app/api/v1/products/route.ts:29-32 | the count is the number of rows the where-clause keeps |
| Pagination.Filter | src/app/api/v1/products/route.ts:24 | the where-clause keeps exactly the rows it accepts |
| Pagination.FilterDistributes | src/app/api/v1/products/route.ts:24 | filtering distributes over concatenation, so the kept rows stay in table order |
| Pagination.Window | src/app/api/v1/users/route.ts:29-32 | `skip`/`take` return the rows from the offset on, at most `take` of them |
| Pagination.PageHasRowsIffWithinTotalPages | src/app/api/v1/users/route.ts:30-53 | a valid page has rows exactly when it is not past totalPages |
| Pagination.PagesTile | src/app/api/v1/users/route.ts:30 | each page starts where the previous one ends |
| Pagination.WindowsTile | src/app/api/v1/users/route.ts:30-31 | two consecutive windows make up one window of twice the size |
| Pagination.CountAppend | src/app/api/v1/products/route.ts:29-32 | an appended row adds one to the count exactly when it is kept |
| Auth.GetAuthenticatedUser | src/lib/auth.ts:34-39 | a missing or empty id header gives id 0, and a missing or empty role header gives USER; present headers are read as they are |
| Auth.AdminIffRoleHeader | src/lib/auth.ts:34-48 | the caller is an admin exactly when the role header is ADMIN or SUPER_ADMIN, so a missing role header never gives one; a super admin is an admin |
| Auth.Authorize | src/lib/auth.ts:59-72 | a missing or empty user id throws before any lookup, and a failing lookup throws too; with a working lookup it gives null exactly when the id is NaN, no user has it or the role is empty; otherwise it gives the user's role and id as a string |
| Auth.Jwt | src/lib/auth.ts:76-82 | with a user the token takes its id and role; without one the token is unchanged |
| Auth.Session | src/lib/auth.ts:83-89 | with a token subject the session takes the subject and role; otherwise the session is unchanged |
| Auth.SignInReachesSession | src/lib/auth.ts:59-89 | an authorized user's id and role reach the session through the jwt and session callbacks |
| Middleware.Middleware | src/middleware.ts:4-35 | unprotected paths pass untouched; without a token the request is redirected to /login; a thrown error is a 401; with a token, /api paths get the identity headers |
| Middleware.MatcherApplies | src/middleware.ts:37-39 | the middleware runs on /api/v1 and on every path below it |
| Middleware.OnlyLoginIsBothMatchedAndUnprotected | src/middleware.ts:6-11 | of the unprotected routes, only the v1 login path falls under the matcher |
| Middleware.MatchedPathsGetIdentityHeaders | src/middleware.ts:21-26 | every protected path the matcher selects gets x-user-id and x-user-role when a token is present |
| Middleware.HeadersRoundTrip | src/middleware.ts:21-26 | the headers the middleware sets read back, through getAuthenticatedUser, as the token's id and role |
| UserAgent.DeviceOf | src/utils/parse.ts:6-13 | the mobile glyph exactly when "mobile" or "tablet" appears (ignoring case), and the laptop glyph otherwise |
| UserAgent.OsOf | src/utils/parse.ts:16-27 | each system is reported exactly when it matches and none before it in the order Windows, Mac OS X, Linux, Android, iOS does, so Android only without Linux; empty exactly when none matches |
| UserAgent.BrowserOf | src/utils/parse.ts:30-41 | each browser is reported exactly when its test passes and none before it in the order Edge, Chrome (not Chromium), Safari (not Chrome), Firefox, Opera passes; empty exactly when none does |
| UserAgent.ParseUserAgent | src/utils/parse.ts:2-44 | a missing or empty agent gives "Desconocido"; otherwise device + browser, and " • " + OS only when an OS was found |
| UserAgent.DecodeLabel | src/utils/parse.ts:43 | the label can be split back into device, browser and OS |
| UserAgent.KnownAgentsAreLabelled | src/utils/parse.ts:2-44 | "Desconocido" exactly for missing or empty input; every other result starts with a device glyph |
| UserAgent.LabelIsFaithful | src/utils/parse.ts:2-44 | two agents get the same label exactly when they agree on device, browser and OS |
| SalesV1.BuildConditions | src/app/api/v1/sales/route.ts:22-36 | the status condition comes first and each given filter adds one more; a sale meets all of them exactly when it has the status, is within the given dates and belongs to the given seller |
| SalesV1.PushedMeaning | src/app/api/v1/sales/route.ts:22-36 | the status condition followed by one condition per given filter holds of a sale exactly when the sale is selected |
| SalesV1.GetSales | src/app/api/v1/sales/route.ts:8-69 | status defaults to CONCLUDED and page and limit to 1 and 10; the offset is (page − 1) × limit; the total counts exactly the selected sales; a database failure is a 500 |
| SalesV1.PostSale | src/app/api/v1/sales/route.ts:72-96 | 201 with one new sale of the caller appended: PENDING, CASH, total, amount and change 0 |
| SalesV1.PostAddsOnePendingSale | src/app/api/v1/sales/route.ts:75-88 | a creation adds one pending sale of the caller and none to the concluded listing |
| SalesPages.Where | src/pages/api/sales/index.ts:19-24 | the where-object always has the status; with both dates its saleDate key holds only the upper bound |
| SalesPages.MatchesWhere | src/pages/api/sales/index.ts:19-24 | a sale meets the where-object exactly when it has the status, is on or before a given end date (or on or after the start date when no end is given) and belongs to the given seller |
| SalesPages.Handle | src/pages/api/sales/index.ts:6-72 | 401 without a user; GET lists with destructuring defaults; POST appends a pending zero-amount CASH sale of the user with 201; other methods get 405; only POST changes the table |
| SalesPages.BothDatesKeepOnlyUpperBound | src/pages/api/sales/index.ts:21-22 | with both dates this router keeps every sale the v1 router keeps, and the extra ones are exactly those dated before the start |
| SalesPages.AtMostOneDateAgreesWithV1 | src/pages/api/sales/index.ts:19-24 | with at most one date the two routers select the same sales |
| SalesPages.EmptyStatusDiffers | src/pages/api/sales/index.ts:13 | an empty status is CONCLUDED to the v1 router and stays empty here |
| UsersV1.Page | src/app/api/v1/users/route.ts:29-43 | the listed users are the window of the table at the page's offset, without password hashes |
| UsersV1.GetUsers | src/app/api/v1/users/route.ts:7-63 | 403 exactly for a non-admin; 200 exactly for an admin with valid pagination and a working database, listing the page with totalPages over all users |
| UsersV1.CreationRefusal | src/app/api/v1/users/route.ts:80-100 | a body passes exactly when all fields are present, the role is not SUPER_ADMIN, and ADMIN only for a super admin caller |
| UsersV1.PostUser | src/app/api/v1/users/route.ts:66-125 | 403 for a non-admin before the body is read; 201 exactly when the body passes and the database works, appending the user with the hashed password and ACTIVE |
| UsersV1.CreationNeverEscalates | src/app/api/v1/users/route.ts:88-117 | no added user is a super admin; an added admin means the caller is a super admin; every added user is active with the hashed password |
| UsersV1.PagesOfUsersTile | src/app/api/v1/users/route.ts:29-31 | two consecutive pages list the same users as one page of twice the limit |
| UsersPages.Handle | src/pages/api/users/index.ts:7-105 | an admin gate on both methods; POST as in the v1 router, keyed on the user's role; GET with destructuring defaults and page validation; other methods get 405 |
| UsersPages.CreationAgreesWithV1 | src/pages/api/users/index.ts:10-52 | for the same role, a creation ends with the same status and table on both routers |
| UsersPages.EmptyPageIsFirstPageForV1 | src/app/api/v1/users/route.ts:19-27 | an empty page parameter is page 1 to the v1 router |
| UsersPages.EmptyPageIsRejected | src/pages/api/users/index.ts:60-67 | an empty page parameter is NaN to this router, so a 400 |
| ProductsV1.ActivePage | src/app/api/v1/products/route.ts:21-27 | element by element the active products of the table, in table order, from offset (page − 1) × limit on, and at most limit of them |
| ProductsV1.FilterKeepsNewestFirst | src/app/api/v1/products/route.ts:21-27 | keeping some rows of a newest-first table leaves them newest first |
| ProductsV1.ActivePageIsNewestFirst | src/app/api/v1/products/route.ts:21-27 | a page of a newest-first table is newest first |
| ProductsV1.Listing | src/app/api/v1/products/route.ts:21-42 | the order is createdAt descending, the data is the active page, the total counts active products only, and the page has rows exactly when it is not past totalPages |
| ProductsV1.GetProducts | src/app/api/v1/products/route.ts:8-50 | 400 exactly for invalid pagination; then 500 on a database failure, and otherwise 200 with the listing |
| ProductsV1.PostProduct | src/app/api/v1/products/route.ts:53-86 | an unreadable body is 500; a falsy name or bar code, or an absent price, is 400 (price 0 is accepted); otherwise 201 with createdBy and updatedBy set to the caller |
| ProductsV1.CreatedProductIsListed | src/app/api/v1/products/route.ts:67-78 | a created product adds one to the active total, and the caller is its creator and last editor |
| ProductsV1.InactiveProductIsNotListed | src/app/api/v1/products/route.ts:21-32 | an inactive product changes neither the page nor the meta |
| ProductsPages.Handle | src/pages/api/products/index.ts:5-76 | GET and POST as in the v1 router, with destructuring defaults and the user's id as creator; other methods get 405 |
| ProductsPages.CreationAgreesWithV1 | src/pages/api/products/index.ts:47-71 | when the id header holds the user's id, a creation ends with the same status and table on both routers |

## Left out

- Alerts, console logging and the auto-focus interval of the search components are not modelled. The model records only whether a request is sent and which effects follow.
- Floating-point money: prices and totals are integer cents, and `toFixed(2)` formatting is not modelled. `parseFloat` of the typed amount is left out: the amount comes in as a `JsNumber` that may be NaN.
- React timing: each handler reads the state as it stood when the handler started, and effect timing is not modelled. The newer checkout's `handleOnKeyUp` is memoised without `isReadyToSubmit` among its dependencies, so the source may read a stale flag; the model reads the current one.
- The HTTP clients: fetch, axios and SWR are reduced to a status and a body. Whether the headers the middleware sets on its response reach the route handlers is framework behaviour, so the round trip is stated on the header map.
- Database behaviour: enum validation, NaN integers in written rows, unique constraints and connection errors are all folded into `dbOk`. In `authorize`, a lookup by a NaN id that the database answers finds no user. The sales listing has no order, so only its where-clause and count are modelled, not its rows. The users and products tables are given already in `createdAt`-descending order.
- The `authenticate` wrapper of the pages routes (`src/lib/middleware.ts`) is not part of this model. The users and products handlers take the user row it supplies as given.
- Query parameters that repeat (arrays) and JSON body fields of the wrong type: a field is either a string (a number for a price) or absent.
- The server's line-item and payment routes (`/api/v1/sales/{id}/items`, `PUT /api/v1/sales/{id}`) are not part of this model. The product table's requests are applied to the items only in `ProductsTable.Apply`, as a reference point.
- Cart.SalesStore: items are values. The source mutates item objects in place, and another holder of the same object would see the change; that aliasing is not modelled.
- The random `temp-` suffix of a new cart item (`Math.random`) is a parameter.
- Concurrency: two scans racing, and atomic total updates.
- CheckoutPanel.CheckoutActions.EnterKeyDown: implicit form submission is modelled as its own event before the keyup handler. Whether React renders `isPending` between that submission and the keyup's `requestSubmit` is not modelled, so the model counts both requests.
- The checkout form action, the login routes, the Telegram bot, the data hooks and the rendering-only components are not part of this model.
