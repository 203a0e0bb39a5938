# Inventory dashboard — a Dafny model

This project models the core of a browser-only inventory dashboard written in
React and TypeScript. The dashboard has:

- a sign-in context with three demo accounts;
- a route table guarded by "signed in" and "admin" checks (React Router
  compares paths without regard to case or trailing slashes), and the
  navigation bar;
- a stock-level summary and a best-sellers card;
- the order pages: a search, a new-order form, a detail dialog, an order
  table, a status dialog and the admin order panel with its status buttons;
- the admin panels for products (with image uploads), warehouses (with
  shipping-method toggles), clients, suppliers and expenses (with 20% VAT);
- the payouts panel and its per-item payout-status dialog.

All of these talk to one in-browser SQL database through a single
`executeQuery` function. The model replaces it with an abstract store in
`Store`:

- every table is a finite map from its `id` primary key to a record;
- `SELECT … WHERE … ORDER BY key DESC` is a method (`Store.Select`) that
  returns exactly the matching rows, each once, ordered by the key;
- `INSERT` of an id already present is a silent no-op, because the wrapper
  swallows the primary-key error and returns no rows;
- `UPDATE … WHERE id = ?` and `DELETE … WHERE id = ?` touch exactly one row;
- the one failure a component's `catch` can see is an uninitialisable
  database. It is the flag `Database.available`: when it is false, every
  statement throws and the component either records its error message or
  only logs.

Each React component with state is a `class`:

- its `useState` fields are class fields;
- its handlers are methods whose postconditions state the new table contents
  and the new component state, on both the success and the failure path;
- its render guards are functions.

Pure helpers (the status buttons, the stock buckets, the VAT, the toggles, the
id minting, the route table) are functions, with lemmas that relate them.

Files, one module each: `store.dfy`, `schema.dfy`, `auth_context.dfy`,
`routes.dfy`, `navbar.dfy`, `edit_modal.dfy`, `add_order_modal.dfy`,
`order_page.dfy`, `order_manager.dfy`, `edit_order_modal.dfy`,
`order_details_modal.dfy`, `order_table.dfy`, `payout_details_modal.dfy`,
`payouts_manager.dfy`, `expenses_manager.dfy`, `dashboard_page.dfy`,
`best_sellers.dfy`, `product_manager.dfy`, `warehouse_manager.dfy`,
`client_manager.dfy`, `supplier_manager.dfy`.

## Model

| member | source | states |
|---|---|---|
| Store.ContainsIffWitness | src/components/admin/ClientManager.tsx:21-23 | The `LIKE '%q%'` test holds exactly when some position of the field starts a copy of the query |
| Store.Contains | src/components/admin/ClientManager.tsx:21-23 | A field contains each of its prefixes, and never a query longer than itself |
| Store.Matches | src/components/admin/ClientManager.tsx:21-23 | An empty search matches every field, and a matched query is no longer than the field |
| Store.EmptySearchMatchesAll | src/components/admin/ClientManager.tsx:21-23 | An empty search box filters nothing, and `LIKE '%%'` would have matched every row anyway |
| Store.MintId | src/components/admin/ClientManager.tsx:40 | A generated id starts with its table's prefix (`client_`, `prod_`, …) |
| Store.MintIdInjective | src/components/admin/ClientManager.tsx:40 | Two ids with the same prefix are equal exactly when they were minted in the same millisecond |
| Store.RemoveAt | src/components/orders/AddOrderModal.tsx:62-64 | Filtering out index `i` removes that one element and keeps the others in order; an index outside the list changes nothing |
| Store.Insert | src/db/database.ts:147-152 | An insert under a fresh id adds exactly that row and keeps every other row; a duplicate id leaves the table unchanged, because the failure is swallowed |
| Store.UpdateRow | src/components/admin/ClientManager.tsx:55-58 | `UPDATE … WHERE id = ?` keeps the key set, rewrites only the row with that id, and does nothing when there is no such row |
| Store.DeleteRow | src/components/admin/ClientManager.tsx:69 | `DELETE … WHERE id = ?` removes exactly that key and keeps every other row |
| Store.DeleteUndoesInsert | src/components/admin/ClientManager.tsx:38-75 | Deleting a row just added under a fresh id gives back the original table |
| Store.InsertDesc | src/pages/OrderPage.tsx:32-34 | Putting one more id into a key-descending list keeps it sorted, keeps it free of repeats and adds exactly that id |
| Store.Select | src/db/database.ts:128-146 | A SELECT returns each row satisfying the WHERE clause exactly once, no other row, ordered by the ORDER BY key descending |
| Store.ListingRows | src/db/database.ts:128-146 | Every listed row satisfies the filter and is in the table, every matching row is listed, and the rows are in key order |
| Store.ListingSameFilter | src/components/admin/OrderManager.tsx:19-33 | Two WHERE clauses that accept the same rows produce the same listings |
| Store.DistinctCard | src/db/database.ts:128-146 | A list of ids without repeats has as many elements as its set of ids |
| Store.ListingAllCount | src/pages/DashboardPage.tsx:25 | A SELECT without a WHERE clause returns exactly one row per table row |
| Store.ViewOf | src/components/admin/ClientManager.tsx:77-83 | Once an error is set the component renders that message and nothing else; otherwise it renders its content |
| Schema.ParseStatus | src/pages/OrderPage.tsx:8 | A status text that parses names the status it parses to |
| Schema.StatusName | src/pages/OrderPage.tsx:8 | Every status is stored as one of the five texts pending, processing, shipped, delivered and denied |
| Schema.ParseStatusRoundTrip | src/pages/OrderPage.tsx:8 | Each of the five statuses is stored as text that reads back as itself, and only those five texts read back |
| Schema.Database.constructor | src/db/database.ts:41-111 | A new database has all seven tables empty |
| AuthContext.CredentialRole | src/contexts/AuthContext.tsx:19-28 | A sign-in is accepted exactly for password "123" with username admin, supplier or warehouse, and the role is the username |
| AuthContext.SignedIn | src/contexts/AuthContext.tsx:24-29 | The signed-in state is authenticated and has a user |
| AuthContext.AuthProvider.constructor | src/contexts/AuthContext.tsx:12-15 | The provider starts signed out |
| AuthContext.AuthProvider.Login | src/contexts/AuthContext.tsx:17-33 | Returns true exactly for the three demo accounts, then holds that user with the role named by the username; a rejected attempt changes nothing; "authenticated iff a user is present" is kept |
| AuthContext.AuthProvider.Logout | src/contexts/AuthContext.tsx:35-37 | Logging out returns to the signed-out state from any state |
| Routes.PrivateRoute | src/routes/index.tsx:13-16 | A guarded page is rendered when signed in; otherwise the route redirects to /login |
| Routes.AdminRoute | src/routes/index.tsx:18-21 | The admin page is rendered exactly for an admin user; anyone else is redirected to /dashboard |
| Routes.LayoutPage | src/routes/index.tsx:41-46 | The six layout paths lead to pages other than the login and admin pages, and none of them is /login, / or /admin |
| Routes.Lower | src/routes/index.tsx:27-55 | Lower-cases an ASCII capital and keeps every other character |
| Routes.LowerAll | src/routes/index.tsx:27-55 | Lower-cases a path character by character, keeping its length |
| Routes.TrimSlashes | src/routes/index.tsx:27-55 | Gives a prefix of the path that does not end in a slash, and everything dropped is slashes |
| Routes.Normalize | src/routes/index.tsx:27-55 | The form the router compares is never empty |
| Routes.NormalizeCanonical | src/routes/index.tsx:28-47 | Each route path as written is already in that form, so it matches itself |
| Routes.Route | src/routes/index.tsx:27-55 | The path is matched after ASCII lower-casing and dropping trailing slashes (a path of slashes only is /); then /login and / redirect according to sign-in; the six layout pages render exactly when signed in; /admin renders exactly for a signed-in admin; the admin page is reachable only from /admin; any other path redirects to / |
| Routes.TrailingSlashIgnored | src/routes/index.tsx:27-55 | One more trailing slash does not change where a path leads |
| Routes.CaseIgnored | src/routes/index.tsx:27-55 | Upper- and lower-case spellings of a path lead to the same place |
| Routes.Navigate | src/routes/index.tsx:15-54 | Following redirects stops at once on a rendered page, and with no hops left it is the route's own outcome |
| Routes.Landing | src/routes/index.tsx:27-55 | The landing page is the login page exactly when signed out, and the admin page only for an admin who asked for /admin |
| Routes.RedirectsSettle | src/routes/index.tsx:27-55 | From any path in any state, at most two redirects reach a rendered page: the login page when signed out, otherwise the page asked for or the dashboard |
| Navbar.BuildNavItems | src/components/Navbar.tsx:19-30 | The base list followed by the conditional push builds the links for the user |
| Navbar.ItemsFor | src/components/Navbar.tsx:19-30 | No two links share a path |
| Navbar.IsActive | src/components/Navbar.tsx:41-49 | A highlighted link's path leads to the same route as the pathname |
| Navbar.PathIsCanonical | src/components/Navbar.tsx:19-30 | Every link's path is already in the form the router compares |
| Navbar.NavItemsShape | src/components/Navbar.tsx:19-30 | The six base links always come first, in order; an Admin link is added last exactly for an admin |
| Navbar.AtMostOneActive | src/components/Navbar.tsx:41-49 | No two links share a path, so at most one link is highlighted for any pathname |
| Navbar.NavLinksRender | src/components/Navbar.tsx:19-30 | For a signed-in user, every link offered leads to a page the router renders without a redirect |
| EditModal.Merge | src/components/admin/EditModal.tsx:20 | The object spread takes every form field from the form and every other field from the record being edited |
| EditModal.NumbersArriveAsText | src/components/admin/EditModal.tsx:18-20 | Every field the form supplies arrives as text, even over a numeric field of the edited record |
| EditModal.Submit | src/components/admin/EditModal.tsx:14-21 | A closed dialog submits nothing; an open one submits the merge |
| EditModal.MergeKeepsId | src/components/admin/EditModal.tsx:20 | When the form has no id field, the edited record's id survives the merge, and the edit handlers read that id |
| EditModal.MergeIdempotent | src/components/admin/EditModal.tsx:20 | Merging the same form again over the result changes nothing |
| AddOrderModal.Apply | src/components/orders/AddOrderModal.tsx:66-70 | Updating one field of an item row changes that field only |
| AddOrderModal.SubmittedItems | src/components/orders/AddOrderModal.tsx:53 | Exactly the rows with a product chosen and a positive quantity are submitted |
| AddOrderModal.SubmittedDistributes | src/components/orders/AddOrderModal.tsx:53 | The filter works row by row and keeps the order: filtering a concatenation filters each part |
| AddOrderModal.SubmittedIdempotent | src/components/orders/AddOrderModal.tsx:53 | Filtering twice is the same as filtering once |
| AddOrderModal.SubmittedKeepsValid | src/components/orders/AddOrderModal.tsx:53 | A list whose rows all pass the test is submitted unchanged |
| AddOrderModal.AddOrderModal.constructor | src/components/orders/AddOrderModal.tsx:22 | The form starts with one blank row (no product, quantity 1) |
| AddOrderModal.AddOrderModal.AddItem | src/components/orders/AddOrderModal.tsx:58-60 | Appends one blank row and leaves the existing rows unchanged |
| AddOrderModal.AddOrderModal.RemoveItem | src/components/orders/AddOrderModal.tsx:62-64 | Drops the row at the index and keeps the rest in order; when the call comes from a rendered minus button (shown only for two or more rows), the list stays non-empty |
| AddOrderModal.AddOrderModal.UpdateItem | src/components/orders/AddOrderModal.tsx:66-70 | The copied list differs from the old one only at the updated row, in the one field given |
| AddOrderModal.AddOrderModal.HandleSubmit | src/components/orders/AddOrderModal.tsx:45-56 | The submitted record carries the typed form fields and exactly the rows with a product and a positive quantity |
| OrderPage.NewOrderRow | src/pages/OrderPage.tsx:51-66 | A new order gets id `ord_<now>`, status pending, the form's fields and items, and creation time now |
| OrderPage.SetStatus | src/components/admin/OrderManager.tsx:51-54 | Setting an order's status changes that one order's status and nothing else in the table |
| OrderPage.SearchMatches | src/pages/OrderPage.tsx:32-34 | An order matches a search exactly when its origin or its sender holds a copy of the query at some position |
| OrderPage.OrderPage.constructor | src/pages/OrderPage.tsx:23-27 | The page starts with an empty search, no orders, no error and the form closed |
| OrderPage.OrderPage.LoadOrders | src/pages/OrderPage.tsx:29-43 | Lists the orders whose origin or sender contains the query, newest first; a failure keeps the list and records "Failed to load orders" |
| OrderPage.OrderPage.SetSearchQuery | src/pages/OrderPage.tsx:45-47 | A new query reloads the list for that query |
| OrderPage.OrderPage.HandleAddOrder | src/pages/OrderPage.tsx:49-73 | Inserts the submitted order as pending under `ord_<now>`, closes the form and reloads; a failure writes nothing and records "Failed to add order" |
| OrderPage.OrderPage.Screen | src/pages/OrderPage.tsx:90-96 | With an error the page shows only the error message |
| OrderPage.NewOrdersArePending | src/pages/OrderPage.tsx:62 | Every order created on this page is stored as pending, whatever the form holds |
| OrderPage.ListedOrdersMatch | src/pages/OrderPage.tsx:29-43 | Every listed order is in the table and matches the search, every matching order is listed, and the list is newest first |
| OrderPage.EmptySearchListsAll | src/pages/OrderPage.tsx:29-43 | With an empty search every order is listed |
| OrderManager.Offered | src/components/admin/OrderManager.tsx:146-177 | Each offered button moves the order exactly one stage forward and never to pending; delivered and denied orders get no buttons |
| OrderManager.OfferedEdges | src/components/admin/OrderManager.tsx:146-177 | The buttons are exactly Approve and Deny for pending, Mark as Shipped for processing, and Mark as Delivered for shipped |
| OrderManager.Stage | src/components/admin/OrderManager.tsx:146-177 | Pending is stage 0, delivered is the last stage 3, and no stage exceeds 3 |
| OrderManager.WhereOf | src/components/admin/OrderManager.tsx:19-33 | With no conditions every order passes; an order that passes meets every condition |
| OrderManager.ManagerFilter | src/components/admin/OrderManager.tsx:19-33 | An order that passes matches the search; with "all" the filter is the search alone; with one status, a passing order has that status |
| OrderManager.PathStages | src/components/admin/OrderManager.tsx:146-177 | Along any sequence of clicks on offered buttons, each click advances the order one stage |
| OrderManager.NoWayBack | src/components/admin/OrderManager.tsx:146-177 | The panel never goes back: no status repeats, pending is never re-entered, and at most three clicks are possible |
| OrderManager.BuildConditions | src/components/admin/OrderManager.tsx:19-31 | The assembled conditions accept exactly the orders that match the search and the chosen status; there is no condition exactly when both are blank |
| OrderManager.OrderManager.constructor | src/components/admin/OrderManager.tsx:9-13 | The panel starts with no orders, an empty search, status filter "all" and no error |
| OrderManager.OrderManager.LoadOrders | src/components/admin/OrderManager.tsx:15-43 | Lists exactly the orders passing the search and the status filter, newest first; a failure keeps the list and records "Failed to load orders" |
| OrderManager.OrderManager.HandleStatusChange | src/components/admin/OrderManager.tsx:49-59 | Writes the new status into that order only and reloads; a failure changes nothing and is only logged |
| OrderManager.ListedOrdersPassFilters | src/components/admin/OrderManager.tsx:15-43 | Every listed order has the chosen status and matches a non-empty search; with "all", every matching order is listed; the list is newest first |
| OrderManager.OfferedClick | src/components/admin/OrderManager.tsx:146-177 | Clicking an offered button advances that order exactly one stage and changes no other order |
| EditOrderModal.SelectableStatuses | src/components/orders/EditOrderModal.tsx:66-68 | The dropdown offers exactly the statuses other than pending and denied |
| EditOrderModal.EditOrderModal.constructor | src/components/orders/EditOrderModal.tsx:15 | The selection starts at the order's status, or at processing when there is no order yet |
| EditOrderModal.EditOrderModal.ReceiveOrder | src/components/orders/EditOrderModal.tsx:15 | A new order prop does not reset the selection, which was initialised only once |
| EditOrderModal.EditOrderModal.SelectStatus | src/components/orders/EditOrderModal.tsx:66-68 | Picking an option selects it |
| EditOrderModal.EditOrderModal.HandleSubmit | src/components/orders/EditOrderModal.tsx:18-35 | With an order and a working database: writes the selected status over the order's row whatever its current status, reloads the order page's list (`onUpdate`) and closes the dialog through the table (`onClose`). With no order or on failure nothing is written and neither parent changes. While the selection is one of the dropdown's options, the written status is never pending or denied; that holds in the app because the table mounts the dialog with no order (src/components/orders/OrderTable.tsx:168-172), so the selection starts at processing |
| EditOrderModal.DialogVersusPanel | src/components/orders/EditOrderModal.tsx:66-68 | Of the dialog's choices, the admin panel would offer from a given status only the one forward edge |
| EditOrderModal.DialogCanGoBack | src/components/orders/EditOrderModal.tsx:20-35 | A delivered or denied order can be set back to processing through this dialog, a move the admin panel never offers |
| OrderDetailsModal.ResolveOne | src/components/orders/OrderDetailsModal.tsx:42-53 | An item yields a line exactly when its product exists, and the line pairs that product with the item's quantity |
| OrderDetailsModal.Resolve | src/components/orders/OrderDetailsModal.tsx:42-53 | The loop yields at most one line per item |
| OrderDetailsModal.ResolveAppend | src/components/orders/OrderDetailsModal.tsx:42-53 | Resolving a concatenation of items resolves each part, in order |
| OrderDetailsModal.ResolveAllFound | src/components/orders/OrderDetailsModal.tsx:42-53 | When every product exists, line `i` is item `i`'s product and quantity |
| OrderDetailsModal.ResolveNoneFound | src/components/orders/OrderDetailsModal.tsx:42-53 | When no product exists the dialog lists nothing |
| OrderDetailsModal.TotalsAppend | src/components/orders/OrderDetailsModal.tsx:159-165 | Total Items and Total Amount add up over a concatenation of lines |
| OrderDetailsModal.TotalItems | src/components/orders/OrderDetailsModal.tsx:159-161 | Total Items is at least the number of lines when each quantity is at least 1, and never negative when no quantity is |
| OrderDetailsModal.TotalAmount | src/components/orders/OrderDetailsModal.tsx:163-165 | Total Amount is never negative when no price or quantity is |
| OrderDetailsModal.ItemsAmountSnoc | src/components/admin/PayoutsManager.tsx:44-46 | A running `total +=` over the items computes the order's value |
| OrderDetailsModal.TotalAmountOfResolved | src/components/orders/OrderDetailsModal.tsx:159-165 | The dialog's Total Amount is the order's value item by item, with missing products counting 0 |
| OrderDetailsModal.OrderDetailsModal.constructor | src/components/orders/OrderDetailsModal.tsx:20-21 | The dialog starts with no warehouse and no lines |
| OrderDetailsModal.OrderDetailsModal.LoadDetails | src/components/orders/OrderDetailsModal.tsx:25-61 | Loads the order's warehouse (or none) and the resolved lines; without an order, or on failure, nothing changes |
| OrderTable.Put | src/components/orders/OrderTable.tsx:34-38 | Writing a detail under its product id adds that key; a new key is appended; an existing key keeps its place and its entry is overwritten by the new detail while every other entry stays; no key ever occurs twice |
| OrderTable.PutKeeps | src/components/orders/OrderTable.tsx:34-38 | After the write the new detail is in the dictionary, and every entry under another key is still there |
| OrderTable.BuildDetails | src/components/orders/OrderTable.tsx:28-40 | Every key names a known product, every item whose product is known has a key, and no key occurs twice |
| OrderTable.DetailOf | src/components/orders/OrderTable.tsx:34-38 | A detail keeps the item's product id and quantity, and its total is price times quantity |
| OrderTable.BuildDetailsKeys | src/components/orders/OrderTable.tsx:28-40 | The dictionary only has keys that some item names |
| OrderTable.DuplicateProductUndercounts | src/components/orders/OrderTable.tsx:28-40 | An order of 2 and then 3 units of one product at 10.0 has a row total of 30.0, while the detail dialog shows 50.0 |
| OrderTable.LastItemWins | src/components/orders/OrderTable.tsx:28-40 | For any order, a product's entry is the detail of the last item naming it and is its only entry, so earlier items of that product are dropped |
| OrderTable.PutMerged | src/components/orders/OrderTable.tsx:34-38 | The corrected entry update adds a repeated product's quantity and total to its entry, so the totals sum grows by the new detail's total |
| OrderTable.MergedRowTotalIsOrderAmount | src/components/orders/OrderTable.tsx:89-91 | With merged entries the row total equals the order's amount, the same as the detail dialog's Total Amount |
| OrderTable.DistinctProductsAgree | src/components/orders/OrderTable.tsx:28-40 | When no product repeats, the code as written builds the corrected dictionary and its row total is the order's amount |
| OrderTable.ViewFor | src/components/orders/OrderTable.tsx:52-58 | "No orders found" is shown exactly when there are no orders; otherwise there is one row per order |
| OrderTable.OrderTable.constructor | src/components/orders/OrderTable.tsx:17-21 | The table starts with no details loaded and no order being edited |
| OrderTable.OrderTable.LoadOrderDetails | src/components/orders/OrderTable.tsx:23-46 | Files the detail dictionary built item by item under the order's id and leaves other orders' dictionaries alone; a failure changes nothing |
| OrderTable.OrderTable.RowTotal | src/components/orders/OrderTable.tsx:89-91 | A row whose details are not loaded shows 0 |
| OrderTable.OrderTable.StartEdit | src/components/orders/OrderTable.tsx:146-153 | Only an admin can open the edit dialog on an order |
| OrderTable.OrderTable.CloseEditDialog | src/components/orders/OrderTable.tsx:172 | The dialog's `onClose` clears the order being edited and keeps the rows and their details |
| OrderTable.LoadedRowTotal | src/components/orders/OrderTable.tsx:89-91 | After a load, a row whose items name distinct products shows the order's amount |
| PayoutDetailsModal.LookupStatus | src/components/admin/PayoutDetailsModal.tsx:29-36 | The status read is the stored status of a row for the (order, product) pair, or unsold when there is no such row |
| PayoutDetailsModal.StatusReadsUnique | src/components/admin/PayoutDetailsModal.tsx:29-36 | With at most one row per pair, the status read is determined |
| PayoutDetailsModal.UpdatePair | src/components/admin/PayoutDetailsModal.tsx:58-62 | Rewrites status and time of the pair's rows only |
| PayoutDetailsModal.Upsert | src/components/admin/PayoutDetailsModal.tsx:51-75 | The upsert keeps every existing row id and adds at most the one minted `status_<now>` |
| PayoutDetailsModal.UpsertProperties | src/components/admin/PayoutDetailsModal.tsx:51-75 | The upsert never creates a second row for a pair, reads back the new status (unless the minted id was already taken), and leaves every other pair's rows as they were |
| PayoutDetailsModal.UpdatePairProperties | src/components/admin/PayoutDetailsModal.tsx:58-62 | Updating a pair that has a row keeps one row per pair and reads back the new status |
| PayoutDetailsModal.InsertPairProperties | src/components/admin/PayoutDetailsModal.tsx:63-75 | Inserting the first row of a pair under a fresh id keeps one row per pair and reads back the new status |
| PayoutDetailsModal.LineFor | src/components/admin/PayoutDetailsModal.tsx:33-37 | A line carries the item's quantity and status, and a price exactly when the product exists |
| PayoutDetailsModal.WithStatus | src/components/admin/PayoutDetailsModal.tsx:77-79 | Relabels exactly the lines of that product and keeps the others |
| PayoutDetailsModal.SoldLines | src/components/admin/PayoutDetailsModal.tsx:146-152 | Only sold lines are kept |
| PayoutDetailsModal.OnlySoldLinesCount | src/components/admin/PayoutDetailsModal.tsx:146-152 | The expected payout depends only on the sold lines |
| PayoutDetailsModal.NothingSoldPaysZero | src/components/admin/PayoutDetailsModal.tsx:146-152 | With nothing sold the expected payout is 0 |
| PayoutDetailsModal.ExpectedPayout | src/components/admin/PayoutDetailsModal.tsx:146-152 | The expected payout is NaN exactly when a sold line has no product behind it |
| PayoutDetailsModal.LinesFor | src/components/admin/PayoutDetailsModal.tsx:23-39 | There is one line per order item |
| PayoutDetailsModal.ExpectedPayoutIsSoldAmount | src/components/admin/PayoutDetailsModal.tsx:146-152 | When every product exists, the expected payout is a number: the sold part of the order's value |
| PayoutDetailsModal.SoldAmountAtMostTotal | src/components/admin/PayoutDetailsModal.tsx:146-152 | With non-negative prices and quantities, the sold part lies between 0 and the order's value |
| PayoutDetailsModal.PayoutDetailsModal.constructor | src/components/admin/PayoutDetailsModal.tsx:14 | The dialog starts with no lines |
| PayoutDetailsModal.PayoutDetailsModal.LoadProducts | src/components/admin/PayoutDetailsModal.tsx:17-49 | One line per item, in item order, each with its product and its stored (or default) status; without an order, or on failure, nothing changes |
| PayoutDetailsModal.PayoutDetailsModal.HandleStatusChange | src/components/admin/PayoutDetailsModal.tsx:51-85 | Upserts the pair's status row and relabels the matching lines; a failure changes neither the table nor the lines. The `onStatusUpdate` reload is in `PayoutsManager.PayoutsManager.HandleItemStatusChange` |
| PayoutDetailsModal.PayoutDetailsModal.Payout | src/components/admin/PayoutDetailsModal.tsx:146-152 | The dialog's Expected Payout is NaN exactly when one of its sold lines has no product behind it |
| PayoutsManager.LoadOrderDetails | src/components/admin/PayoutsManager.tsx:34-61 | A loaded order keeps its fields, its total is its value priced from the product table (the detail dialog's Total Amount), and it holds exactly one stored status per product id of its items |
| PayoutsManager.LoadAll | src/components/admin/PayoutsManager.tsx:33-62 | Every listed order is loaded, in row order |
| PayoutsManager.OrderPayoutAsWritten | src/components/admin/PayoutsManager.tsx:75-80 | As written, an order's payout is NaN exactly when one of its sold items has no stored price |
| PayoutsManager.ExpectedPayoutsAsWritten | src/components/admin/PayoutsManager.tsx:73-84 | As written, the sum is NaN exactly when some order's payout is |
| PayoutsManager.SoldPricedAgrees | src/components/admin/PayoutsManager.tsx:77 | When every sold item's stored price is its product's price, the as-written order payout is the priced one |
| PayoutsManager.ExpectedPayoutsPriced | src/components/admin/PayoutsManager.tsx:73-84 | When every sold item's stored price is its product's price, the as-written sum is a number and equals the corrected one |
| PayoutsManager.UnsoldContributesNothing | src/components/admin/PayoutsManager.tsx:73-84 | As written, with no sold item the expected payouts are 0 |
| PayoutsManager.NoSoldItemsPayZero | src/components/admin/PayoutsManager.tsx:75-80 | As written, an order with no sold item contributes 0 |
| PayoutsManager.FormOrderPayoutIsNaN | src/components/admin/PayoutsManager.tsx:77 | One sold item of an order made by the order form (no stored price) makes the sum over all orders NaN |
| PayoutsManager.PricedMatchesDialog | src/components/admin/PayoutsManager.tsx:73-84 | The corrected sum gives each order the payout dialog's expected payout when all its products exist |
| PayoutsManager.PricedAtMostTotals | src/components/admin/PayoutsManager.tsx:73-84 | With non-negative prices and quantities, the corrected payout lies between 0 and the listed orders' value |
| PayoutsManager.PayoutsManager.constructor | src/components/admin/PayoutsManager.tsx:18-21 | The panel starts with an empty search, no orders and an expected payout of 0 |
| PayoutsManager.PayoutsManager.LoadOrders | src/components/admin/PayoutsManager.tsx:25-71 | Lists the orders whose id or warehouse id matches the search, each loaded with its value and statuses, then recomputes the expected payouts as written; a failure changes nothing |
| PayoutsManager.PayoutsManager.HandleItemStatusChange | src/components/admin/PayoutDetailsModal.tsx:77-81 | A status click in the dialog upserts the pair's row, relabels the dialog's lines and then runs the panel's `loadOrders` (`onStatusUpdate`, src/components/admin/PayoutsManager.tsx:153-157): the listing is reloaded and the expected payouts recomputed. A failure changes neither the table, the lines nor the panel |
| ExpensesManager.Vat | src/components/admin/ExpensesManager.tsx:53 | The VAT is a fifth of the amount, and for a non-negative amount it lies between 0 and the amount |
| ExpensesManager.NewExpenseRow | src/components/admin/ExpensesManager.tsx:52-64 | A new expense gets id `exp_<now>`, the form's description, amount and date, and the VAT of its amount |
| ExpensesManager.SumAmount | src/components/admin/ExpensesManager.tsx:35-38 | The amount total is never negative when no amount is |
| ExpensesManager.SumVat | src/components/admin/ExpensesManager.tsx:35-38 | The VAT total is never negative when no VAT is |
| ExpensesManager.VatTotalIsFifthOfAmount | src/components/admin/ExpensesManager.tsx:35-38 | When each row's VAT is 20% of its amount, the VAT total is 20% of the amount total |
| ExpensesManager.ListedVatIsFifth | src/components/admin/ExpensesManager.tsx:35-38 | When every stored VAT is 20% of its amount, the listed expenses' VAT total is 20% of their amount total |
| ExpensesManager.ExpensesManager.constructor | src/components/admin/ExpensesManager.tsx:18-23 | The panel starts with no expenses and zero totals |
| ExpensesManager.ExpensesManager.LoadExpenses | src/components/admin/ExpensesManager.tsx:25-44 | Lists the matching expenses by date, latest first, and totals exactly those; when every stored VAT is 20% of its amount, the VAT total is 20% of the amount total |
| ExpensesManager.ExpensesManager.HandleAddExpense | src/components/admin/ExpensesManager.tsx:50-70 | Stores the expense with its VAT under `exp_<now>`, closes the form and reloads: the list is the matching expenses by date and the totals are theirs. Rows with 20% VAT stay that way. A failure changes neither the table, the list, the form nor the totals |
| ExpensesManager.ExpensesManager.HandleDeleteExpense | src/components/admin/ExpensesManager.tsx:72-79 | Deletes that expense only and reloads: the list is the matching expenses by date and the totals are theirs. A failure changes neither the table, the list nor the totals |
| DashboardPage.Classify | src/pages/DashboardPage.tsx:35-41 | Stock 0 is out of stock; any other stock below 10 (negatives too) is low; 10 to 49 is near-low; 50 and above is high |
| DashboardPage.Count | src/pages/DashboardPage.tsx:35-41 | A bucket never counts more products than there are |
| DashboardPage.LevelsOf | src/pages/DashboardPage.tsx:28-41 | No counter exceeds the number of products, and with no products all four are 0 |
| DashboardPage.CountsSumToProducts | src/pages/DashboardPage.tsx:35-41 | Each product is counted in exactly one bucket, so the four counts add up to the number of products |
| DashboardPage.CountLevels | src/pages/DashboardPage.tsx:28-41 | The loop's counters are the per-bucket counts of the rows, and they add up to the number of rows |
| DashboardPage.ChartData | src/pages/DashboardPage.tsx:43-48 | The chart has four slices, High, Near-Low, Low and Out, in that order, carrying the four counts |
| DashboardPage.HasDataIffSomeCount | src/components/dashboard/StockLevelChart.tsx:15 | The chart has data exactly when some count is positive |
| DashboardPage.NoDataIffNoProducts | src/components/dashboard/StockLevelChart.tsx:15-27 | "No stock data available" is shown exactly when there are no products |
| DashboardPage.DashboardPage.constructor | src/pages/DashboardPage.tsx:12-19 | The page starts with four zero slices, loading, and no error |
| DashboardPage.DashboardPage.LoadStockLevels | src/pages/DashboardPage.tsx:22-55 | The chart shows the counts of the whole product table; they add up to the number of products, and there is data exactly when there are products. A failure keeps the slices and records "Failed to load stock levels". Either way loading ends |
| DashboardPage.DashboardPage.Screen | src/pages/DashboardPage.tsx:60-66 | With an error the page shows only the error message |
| BestSellers.ViewFor | src/components/dashboard/BestSellers.tsx:29-67 | The error comes first, then the loading text; "No products found" is shown exactly when loading succeeded with no rows; otherwise the list is shown |
| BestSellers.TopOfListing | src/components/dashboard/BestSellers.tsx:16 | The first `n` rows of a stock-ordered listing of the whole table are sorted, come from the table, and no row left out has more stock than one kept |
| BestSellers.LeftOutHasLess | src/components/dashboard/BestSellers.tsx:16 | In a stock-ordered list, no row after the first `n` has more stock than one of them |
| BestSellers.WholeTableListed | src/components/dashboard/BestSellers.tsx:16 | A listing without a WHERE clause holds every table row and nothing else, one per row, by stock descending |
| BestSellers.PrefixOfListing | src/components/dashboard/BestSellers.tsx:16 | The first `n` rows of such a list are sorted, come from the table, and no table row left out has more stock than one kept |
| BestSellers.PrefixIsFirstRows | src/components/dashboard/BestSellers.tsx:16 | The first `n` rows of a stock-ordered listing of the whole table are the start of that listing |
| BestSellers.SelectTop | src/components/dashboard/BestSellers.tsx:16 | `LIMIT 5` over `ORDER BY stockLevel DESC`: five products (all when fewer), sorted by stock, taken from the table, none left out with more stock, and the start of a listing of the whole table, so no row twice |
| BestSellers.BestSellers.constructor | src/components/dashboard/BestSellers.tsx:7-9 | The card starts with no products, loading, and no error |
| BestSellers.BestSellers.LoadProducts | src/components/dashboard/BestSellers.tsx:11-27 | Shows the first five rows (all when fewer) of the `ORDER BY stockLevel DESC` listing of the whole table, so each table row at most once: sorted by stock, taken from the table, none left out with more stock; a failure keeps the list and records "Failed to load best sellers"; either way loading ends |
| BestSellers.BestSellers.Screen | src/components/dashboard/BestSellers.tsx:29-67 | A recorded error takes the whole card; "No products found" only after an empty successful load |
| ProductManager.AddImages | src/components/admin/ProductManager.tsx:42-62 | An upload that would exceed 20 images is rejected whole; otherwise every file is appended, in order |
| ProductManager.UploadKeepsCap | src/components/admin/ProductManager.tsx:46-49 | An upload never takes an image list within the cap above it, and never drops an image |
| ProductManager.NewProductRow | src/components/admin/ProductManager.tsx:66-79 | A new product gets id `prod_<now>`, the form's fields and the add form's images |
| ProductManager.EditKeepsIdentity | src/components/admin/ProductManager.tsx:92-104 | An edit rewrites the listed columns and the images, and keeps the id and creation time |
| ProductManager.StoredImages | src/components/admin/ProductManager.tsx:126 | The edit form starts from the stored image list, or an empty one when none is stored |
| ProductManager.ProductManager.constructor | src/components/admin/ProductManager.tsx:13-20 | The panel starts with empty lists, no search, no open form and no error |
| ProductManager.ProductManager.LoadProducts | src/components/admin/ProductManager.tsx:22-36 | Lists the products whose name matches the search; a failure keeps the list and records "Failed to load products" |
| ProductManager.ProductManager.HandleImageUpload | src/components/admin/ProductManager.tsx:42-62 | Alerts exactly when the chosen form's list would exceed 20 images, otherwise appends the files to that list only; both lists stay within 20 |
| ProductManager.ProductManager.RemoveSelectedImage | src/components/admin/ProductManager.tsx:346-351 | Removes one add-form preview and keeps the others in order |
| ProductManager.ProductManager.RemoveEditingImage | src/components/admin/ProductManager.tsx:481-486 | The intended click (a `type="button"` button): removes one edit-form preview, keeps the others in order, and leaves the table and the open dialog alone |
| ProductManager.ProductManager.ClickRemoveEditingImage | src/components/admin/ProductManager.tsx:474-486 | As written the trash button has no type, so inside the edit dialog's form (src/components/admin/EditModal.tsx:41-42) it submits the form. The removal is committed first. The previews are keyed by position, so the clicked button stays in the form unless it was the last preview. When it stays and the form's required fields are filled, the row is saved with the form's fields and the list without the image, and the dialog closes. Otherwise only the preview goes |
| ProductManager.ClickSavesUnconfirmed | src/components/admin/ProductManager.tsx:481-486 | A submitting click changes the table (which the intended click leaves alone): the row gets the form's fields and the stored list without the removed image |
| ProductManager.ProductManager.HandleAddProduct | src/components/admin/ProductManager.tsx:64-88 | Inserts the product with the add form's images, closes and empties the form and reloads; a failure changes nothing but the error "Failed to add product" |
| ProductManager.ProductManager.HandleEditProduct | src/components/admin/ProductManager.tsx:90-112 | Rewrites row `id` with the form and the edit images, closes and empties the edit form and reloads; a failure records "Failed to update product" |
| ProductManager.ProductManager.HandleDeleteProduct | src/components/admin/ProductManager.tsx:114-122 | Deletes that product only and reloads; a failure records "Failed to delete product" |
| ProductManager.ProductManager.HandleStartEdit | src/components/admin/ProductManager.tsx:124-127 | Opens the edit form on the product with its stored images |
| ProductManager.ProductManager.CloseAddModal | src/components/admin/ProductManager.tsx:235-238 | Closing the add form empties its image list |
| ProductManager.ProductManager.CloseEditModal | src/components/admin/ProductManager.tsx:363-366 | Closing the edit form empties its image list |
| ProductManager.ProductManager.Screen | src/components/admin/ProductManager.tsx:129-135 | With an error the panel shows only the error message |
| ProductManager.ListedProductsMatch | src/components/admin/ProductManager.tsx:22-36 | Every listed product is in the table and matches the search, and every matching product is listed |
| WarehouseManager.Without | src/components/admin/WarehouseManager.tsx:96 | Filtering out a method keeps exactly the other methods |
| WarehouseManager.WithoutAppend | src/components/admin/WarehouseManager.tsx:96 | The filter keeps the order of the methods: filtering a concatenation filters each part, in turn |
| WarehouseManager.WithoutDistinct | src/components/admin/WarehouseManager.tsx:96 | Filtering keeps a repeat-free list repeat-free |
| WarehouseManager.WithoutAppended | src/components/admin/WarehouseManager.tsx:92-106 | Filtering out the method just appended gives back the list it was appended to |
| WarehouseManager.Toggle | src/components/admin/WarehouseManager.tsx:92-106 | A missing method is appended; a listed one is removed and every other method stays |
| WarehouseManager.ToggleTwice | src/components/admin/WarehouseManager.tsx:92-106 | Toggling twice restores the set of methods, and restores the exact list when the method was absent |
| WarehouseManager.ToggleKeepsDistinct | src/components/admin/WarehouseManager.tsx:92-106 | Toggling never repeats a method |
| WarehouseManager.NewWarehouseRow | src/components/admin/WarehouseManager.tsx:48-51 | A new warehouse gets id `wh_<now>`, the form's fields and the add form's methods |
| WarehouseManager.EditKeepsIdentity | src/components/admin/WarehouseManager.tsx:64-67 | An edit rewrites name, location, contact and methods, and keeps the id and creation time |
| WarehouseManager.WarehouseManager.constructor | src/components/admin/WarehouseManager.tsx:17-24 | The panel starts with empty lists, no search, no open form and no error |
| WarehouseManager.WarehouseManager.LoadWarehouses | src/components/admin/WarehouseManager.tsx:26-40 | Lists the warehouses whose name matches the search; a failure keeps the list and records "Failed to load warehouses" |
| WarehouseManager.WarehouseManager.ToggleShippingMethod | src/components/admin/WarehouseManager.tsx:92-106 | Toggles the method in the chosen form's list only; no list ever repeats a method |
| WarehouseManager.WarehouseManager.HandleAddWarehouse | src/components/admin/WarehouseManager.tsx:46-60 | Inserts the warehouse with the add form's methods, closes and empties the form and reloads; a failure records "Failed to add warehouse" |
| WarehouseManager.WarehouseManager.HandleEditWarehouse | src/components/admin/WarehouseManager.tsx:62-75 | Rewrites row `id` with the form and the edit methods, closes and empties the edit form and reloads; a failure records "Failed to update warehouse" |
| WarehouseManager.WarehouseManager.HandleDeleteWarehouse | src/components/admin/WarehouseManager.tsx:77-85 | Deletes that warehouse only and reloads; a failure records "Failed to delete warehouse" |
| WarehouseManager.WarehouseManager.HandleStartEdit | src/components/admin/WarehouseManager.tsx:87-90 | Opens the edit form on the warehouse with its stored methods |
| WarehouseManager.WarehouseManager.CloseAddModal | src/components/admin/WarehouseManager.tsx:210-211 | Closing the add form empties its method list |
| WarehouseManager.WarehouseManager.CloseEditModal | src/components/admin/WarehouseManager.tsx:277-278 | Closing the edit form empties its method list |
| WarehouseManager.WarehouseManager.Screen | src/components/admin/WarehouseManager.tsx:108-114 | With an error the panel shows only the error message |
| ClientManager.NewClientRow | src/components/admin/ClientManager.tsx:40-44 | A new client gets id `client_<now>` and the form's fields |
| ClientManager.EditKeepsIdentity | src/components/admin/ClientManager.tsx:55-58 | An edit rewrites name, email, phone and address, and keeps the id and creation time |
| ClientManager.ListedClientsMatch | src/components/admin/ClientManager.tsx:18-32 | Every listed client is in the table and matches the search, and every matching client is listed |
| ClientManager.AddedClientIsListed | src/components/admin/ClientManager.tsx:38-51 | A client added under a fresh id appears in the next listing whose search its name matches |
| ClientManager.ClientManager.constructor | src/components/admin/ClientManager.tsx:11-16 | The panel starts with no clients, no search, no open form and no error |
| ClientManager.ClientManager.LoadClients | src/components/admin/ClientManager.tsx:18-32 | Lists the clients whose name matches the search; a failure keeps the list and records "Failed to load clients" |
| ClientManager.ClientManager.SetSearchQuery | src/components/admin/ClientManager.tsx:34-36 | A new query reloads the list for that query |
| ClientManager.ClientManager.HandleAddClient | src/components/admin/ClientManager.tsx:38-51 | Inserts the client, closes the form and reloads; a failure records "Failed to add client" |
| ClientManager.ClientManager.HandleEditClient | src/components/admin/ClientManager.tsx:53-65 | Rewrites row `id` with the form, closes the edit form and reloads; a failure records "Failed to update client" |
| ClientManager.ClientManager.HandleDeleteClient | src/components/admin/ClientManager.tsx:67-75 | Deletes that client only and reloads; a failure records "Failed to delete client" |
| ClientManager.ClientManager.Screen | src/components/admin/ClientManager.tsx:77-83 | With an error the panel shows only the error message |
| SupplierManager.NewSupplierRow | src/components/admin/SupplierManager.tsx:40-44 | A new supplier gets id `sup_<now>`, the form's fields and an empty product list |
| SupplierManager.EditKeepsIdentity | src/components/admin/SupplierManager.tsx:56-58 | An edit rewrites name, contact and address, and keeps the id, the product list and the creation time |
| SupplierManager.ListedSuppliersMatch | src/components/admin/SupplierManager.tsx:18-32 | Every listed supplier is in the table and matches the search, and every matching supplier is listed |
| SupplierManager.AddedSupplierIsListed | src/components/admin/SupplierManager.tsx:38-52 | A supplier added under a fresh id appears in the next listing whose search its name matches |
| SupplierManager.SupplierManager.constructor | src/components/admin/SupplierManager.tsx:11-16 | The panel starts with no suppliers, no search, no open form and no error |
| SupplierManager.SupplierManager.LoadSuppliers | src/components/admin/SupplierManager.tsx:18-32 | Lists the suppliers whose name matches the search; a failure keeps the list and records "Failed to load suppliers" |
| SupplierManager.SupplierManager.SetSearchQuery | src/components/admin/SupplierManager.tsx:34-36 | A new query reloads the list for that query |
| SupplierManager.SupplierManager.HandleAddSupplier | src/components/admin/SupplierManager.tsx:38-52 | Inserts the supplier, closes the form and reloads; a failure records "Failed to add supplier" |
| SupplierManager.SupplierManager.HandleEditSupplier | src/components/admin/SupplierManager.tsx:54-66 | Rewrites row `id` with the form, closes the edit form and reloads; a failure records "Failed to update supplier" |
| SupplierManager.SupplierManager.HandleDeleteSupplier | src/components/admin/SupplierManager.tsx:68-76 | Deletes that supplier only and reloads; a failure records "Failed to delete supplier" |
| SupplierManager.SupplierManager.Screen | src/components/admin/SupplierManager.tsx:78-84 | With an error the panel shows only the error message |

## Left out

- Asynchrony is not modelled: `async`/`await`, `Promise.all`, React effects and re-renders. Each handler is one atomic step, and an effect's reload is an explicit call.
- Timing of image uploads: `FileReader` reads finish in any order, but the model appends the uploaded files in file order.
- Numbers are exact reals and integers, not IEEE doubles. Rounding, `toFixed(2)` and `parseFloat`/`parseInt` are not modelled; the forms hand over numbers already parsed. NaN appears only where the findings need it, as `None`.
- JSON encoding of the `items`, `images`, `shippingMethods` and `products` columns is not modelled: the tables hold the decoded lists.
- SQL is not modelled as text. `LIKE` is plain substring containment, without SQLite's ASCII case folding or the `%` and `_` wildcards inside a query; the string splicing of the query into the SQL is not modelled either.
- Ties in `ORDER BY`: rows with equal keys come in an order the model leaves open (`Store.Select`). The best-sellers card takes the first five rows of such a listing, so which of several products tied at the fifth place is shown is left open too (`BestSellers.BestSellers.LoadProducts`).
- `isLoading` is modelled only where a view depends on it (the dashboard chart and the best-sellers card). Elsewhere the loading texts are left out.
- `alert()` is the `alerted` result of `ProductManager.ProductManager.HandleImageUpload`. `console.error` is dropped.
- Times are natural numbers (milliseconds). Two inserts in the same millisecond mint the same id, so the second is a silent no-op (`Store.Insert`, `Store.MintIdInjective`).
- Database internals are not modelled: sql.js, `localStorage` persistence and `saveDatabase`. Only the failed-initialisation path is kept, as `Database.available`.
- Rendering is not modelled (markup, animations, icons, the pie chart itself); only the guards that choose what is shown are. Of the stock chart only `hasData` is modelled.
- The pages with mock data only (inventory, sales, report, document, login form, admin tabs, layout) are not part of this model.
- OrderTable loads its details through `useState(() => …)`, which runs once at mount and not when `orders` changes. The model offers `LoadOrderDetails` per order and leaves that timing out.
- AddOrderModal.AddOrderModal.UpdateItem: requires an index inside the list; JavaScript would create a sparse array for an index past the end, and the rendered rows only ever pass valid indices.
- ProductManager.ProductManager.RemoveSelectedImage: its trash button (src/components/admin/ProductManager.tsx:346-351) also has no type, but the add dialog is src/components/admin/AddModal.tsx, which is not part of this model; only the removal is modelled, not a submit the click may trigger.
- Routes.Route: only ASCII case folding and trailing slashes are modelled; non-ASCII case folding, percent-decoding and repeated inner slashes are not.
- Navbar.IsActive: highlighting compares the pathname exactly, as the source does, so a path such as "/Dashboard/" renders the dashboard without highlighting its link; the contract states only the one direction that holds.
- PayoutDetailsModal.PayoutDetailsModal.HandleStatusChange: requires an order, since the dialog renders nothing, and so offers no status control, without one.
- ProductManager.ProductManager.HandleStartEdit and WarehouseManager.WarehouseManager.HandleStartEdit: require a listed row, since the edit button exists only on listed rows.
- The edit handlers of the warehouse, client, supplier and product panels receive the row id as a parameter. In the source it is the `id` that the generic edit dialog keeps from the edited record (`EditModal.MergeKeepsId`).
- ExpensesManager: its `catch` blocks only log and there is no error field, so a failure leaves the state as it was.
- OrderDetailsModal and PayoutDetailsModal fetch each product with one `SELECT … WHERE id = ?` per item. The model reads the product map directly, which returns the same row.

## Findings

| source | as written | input that shows it | evidently intended | confidence | as-written member | corrected member |
|---|---|---|---|---|---|---|
| src/components/orders/OrderTable.tsx:28-40 | The row total sums a dictionary keyed by product id, so a second item of the same product overwrites the first | An order with items ("p", 2) and ("p", 3) and product "p" at price 10.0: the row shows 30.0 while the detail dialog shows 50.0 | The row total is the order's amount, the same as the detail dialog's Total Amount | not executed | OrderTable.DuplicateProductUndercounts | OrderTable.MergedRowTotalIsOrderAmount |
| src/components/admin/PayoutsManager.tsx:73-84 | The expected payouts multiply by `item.price`, but the order form stores items with only `productId` and `quantity` (src/components/orders/AddOrderModal.tsx:13-16) | Any order created by the order form with one item marked sold: `undefined * 2` is NaN, and the displayed sum over all orders is NaN | Price each sold item from the product table, as the order total on the same panel and the payout dialog do | not executed | PayoutsManager.FormOrderPayoutIsNaN | PayoutsManager.PricedMatchesDialog |
| src/components/admin/ProductManager.tsx:481-486 | The edit dialog's trash button has no `type`, so it is a submit button of the dialog's form. A click on any preview but the last removes it, then submits the form: the row is saved with the form's fields and the dialog closes, although Save was never pressed | A product with images [a, b] open in the edit dialog with its required fields filled: clicking the trash button on a writes the form's fields and [b] to the table and closes the dialog | `type="button"`, as on the warehouse dialogs' toggles (src/components/admin/WarehouseManager.tsx:258), so the click only removes the preview and nothing is saved before Save | not executed | ProductManager.ProductManager.ClickRemoveEditingImage | ProductManager.ProductManager.RemoveEditingImage |
