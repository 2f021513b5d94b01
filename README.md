# Wareflow core, modelled in Dafny

Wareflow is a warehouse management application: a React front end over an
Express/Prisma REST back end. This project models the logic of that core
that decides things. It does not model rendering or storage. It covers:

- **Inventory list.** The three-way stock status of an item, its badge, and
  the case-insensitive search over name, code and category.
- **Inventory routes.** The `stockStatus` filter of `GET /inventory` (a
  bucket by the ratio `currentStock / minStockLevel`), the
  `GET /inventory/stats` figures, and the clean-up of a `PUT /inventory/:id`
  payload.
- **Orders list.** The value of an order, the status and type badges, the
  search over orders, and the two-line preview of an order's items.
- **Workers list.** The composite performance score and its badge, the
  search over workers, and the three summary figures: active count, average
  score and total orders processed.
- **Authentication context.** The role → permission table and
  `hasPermission`, including the `TypeError` it throws when a role is one of
  the names every JavaScript object inherits (`constructor`, `toString`, …).
- **Sidebar.** The menu and the entries a signed-in user is shown, or the
  `TypeError` that stops the filter.
- **Create-order dialog.** The editable list of order lines (add, remove,
  update one field, choose an item), the lines it submits, the order number
  made from the clock, and the reset after a successful submit.

Files:

- `common.dfy` (module `Common`): an `Option` type, an order-keeping
  `Filter` with its subsequence and membership facts, and left-fold sums
  that mirror `Array.prototype.reduce` from 0.
- `text.dfy` (module `Text`): lower-casing, substring search, and decimal
  strings with their round trip (`String(n)` and reading it back).
- One module per core source file: `inventory_list.dfy`,
  `inventory_routes.dfy`, `orders_list.dfy`, `workers_list.dfy`,
  `auth_context.dfy`, `sidebar.dfy` and `create_order_modal.dfy`.

The create-order dialog keeps state that its handlers replace. It is the
class `CreateOrderModal.OrderForm`, whose methods are specified by the pure
line-list functions beside it. The item picker's handler appears twice:
`SelectOrderItemAsWritten` is the handler as written, and `SelectOrderItem`
is the corrected handler from the Findings table. Everything else in the core computes values,
so it is written as functions and lemmas.

Nothing in the back end rejects a zero or negative minimum, so the stock
ratio `currentStock / minStockLevel` has its IEEE outcomes: `x / 0` is
`+Infinity` or `-Infinity`, and `0 / 0` is `NaN` (see Findings).

## Model

| member | source | states |
|---|---|---|
| InventoryList.GetStockStatus | src/components/Inventory/InventoryList.tsx:22-26 | critical exactly when stock is at most half the minimum; low exactly when above half and at most the minimum; good exactly when above both; for a non-negative minimum, good iff stock exceeds the minimum |
| InventoryList.StockStatusMonotone | src/components/Inventory/InventoryList.tsx:22-26 | more stock never gives a worse status for the same minimum |
| InventoryList.StockBadge | src/components/Inventory/InventoryList.tsx:28-37 | "Critical" iff the status is critical, "Low Stock" iff low, "Good" for every other status string |
| InventoryList.BadgeOfStatus | src/components/Inventory/InventoryList.tsx:28-37 | the badge of each computed status names that status |
| InventoryList.SearchItems | src/components/Inventory/InventoryList.tsx:16-20 | the result is a subsequence of the items; it holds exactly the items whose name, code or category contains the term, ignoring case; the empty term keeps every item |
| InventoryRoutes.StockRatio | backend-code/routes/inventory.js:49 | for a non-zero minimum the ratio times the minimum is the stock; for a zero minimum the ratio is +Infinity for positive stock, -Infinity for negative stock and NaN for no stock |
| InventoryRoutes.RatioThresholds | backend-code/routes/inventory.js:49-56 | for a non-zero minimum, the ratio is at most 0.5 (or 1) exactly when twice the stock is at most the minimum (or the stock is at most the minimum), with both comparisons turned round for a negative minimum; above is the negation of at most |
| InventoryRoutes.MatchesStockStatus | backend-code/routes/inventory.js:49-59 | an unknown status keeps the item; for a zero minimum, an item with stock is only good, an item owing stock only critical, an empty item in no bucket; for a positive minimum critical iff 2·stock ≤ min, low iff min < 2·stock and stock ≤ min, good iff stock > min; for a negative minimum critical iff 2·stock ≥ min, low iff min ≤ stock and 2·stock < min, good iff stock < min |
| InventoryRoutes.FilterByStockStatus | backend-code/routes/inventory.js:46-61 | without a non-empty status the list is unchanged; otherwise the result is the subsequence of exactly the items in the requested bucket |
| InventoryRoutes.UnknownStatusKeepsAll | backend-code/routes/inventory.js:57-58 | a status other than critical, low or good keeps every item |
| InventoryRoutes.BucketMatchesClassifier | backend-code/routes/inventory.js:49-56 | for a positive minimum, or a zero minimum with a non-zero stock, an item is in a bucket exactly when the list view's status for it is that bucket |
| InventoryRoutes.RatioCompare | backend-code/routes/inventory.js:52-56 | for a positive minimum, comparing the ratio with a bound is the same as comparing the stock with the minimum times that bound |
| InventoryRoutes.RatioCompareNegative | backend-code/routes/inventory.js:52-56 | for a negative minimum, the ratio is at most a bound exactly when the stock is at least the minimum times that bound |
| InventoryRoutes.BucketsPartition | backend-code/routes/inventory.js:50-56 | with a positive minimum every item is in exactly one of the three buckets |
| InventoryRoutes.EmptyItemWithZeroMinimumInNoBucket | backend-code/routes/inventory.js:49-56 | an item with stock 0 and minimum 0 is in none of the three filtered lists, while the list view calls it critical |
| InventoryRoutes.NegativeMinimumListedCritical | backend-code/routes/inventory.js:49-56 | an item with stock 5 and minimum -10 is in the critical list and not in the good list, while the list view calls it good |
| InventoryRoutes.FilterByStockStatusCorrected | backend-code/routes/inventory.js:46-61 | the status filter with the list view's classifier as the bucket test: subsequence, exactly the matching items, unchanged without a status |
| InventoryRoutes.CorrectedFilterPartitions | backend-code/routes/inventory.js:50-56 | with the corrected test, each item is listed under a status exactly when that is the status the list view gives it |
| InventoryRoutes.CorrectedAgreesWithRoute | backend-code/routes/inventory.js:46-61 | when every minimum is positive, or zero with a non-zero stock, the corrected filter and the route's filter return the same list |
| InventoryRoutes.ComputeStats | backend-code/routes/inventory.js:204-225 | total is the number of items; low-stock count is the number of items at or below their minimum, never above the total; value is the sum of stock times price; no items gives (0, 0, 0); non-negative inputs give a non-negative value |
| InventoryRoutes.InventoryValue | backend-code/routes/inventory.js:218-220 | 0 for no items; stock times price for one item; non-negative when no stock and no price is negative |
| InventoryRoutes.InventoryValueAppend | backend-code/routes/inventory.js:218-220 | the value of two item lists together is the sum of their values |
| InventoryRoutes.LowStockIsNotGood | backend-code/routes/inventory.js:214-216 | for a non-negative minimum, an item counts as low stock exactly when the list view does not call it good |
| InventoryRoutes.LowStockCountMatchesBadges | backend-code/routes/inventory.js:214-216 | when no minimum is negative, the low-stock count equals the number of items the list view marks critical or low |
| InventoryRoutes.SeedItemsStats | backend-code/prisma/seed.js:49-72 | the first two seeded items give 2 items, 1 low, value 357.45 |
| InventoryRoutes.ConvertIfTruthy | backend-code/routes/inventory.js:160-162 | the keys stay the same; the named field is parsed only when it is truthy; every other field is unchanged |
| InventoryRoutes.SanitizeUpdates | backend-code/routes/inventory.js:155-169 | `id` and `createdAt` are removed; `lastUpdated` is the request time; every other field of the body is kept; the three numeric fields are parsed when truthy; the rest pass through unchanged; no key is added except `lastUpdated` |
| OrdersList.DisplayedValue | src/components/Orders/OrdersList.tsx:145 | a missing line list is worth 0; otherwise the order value of its lines |
| OrdersList.OrderValueAppend | src/components/Orders/OrdersList.tsx:51-53 | the value of two line lists together is the sum of their values |
| OrdersList.OrderValue | src/components/Orders/OrdersList.tsx:51-53 | 0 for no lines; quantity times price for one line; non-negative when no quantity and no price is negative |
| OrdersList.OrderValueUsesCapturedPrices | src/components/Orders/OrdersList.tsx:51-53 | two line lists with the same quantities and captured prices have the same value, whatever items they name |
| OrdersList.SampleOrderValue | src/components/Orders/OrdersList.tsx:51-53 | twenty bearings at 45.99 and a hundred bolts at 0.85 are worth 1004.8 |
| OrdersList.DisplayedStatus | src/components/Orders/OrdersList.tsx:131 | the shown status is never empty; a present non-empty status is shown as it is |
| OrdersList.StatusBadge | src/components/Orders/OrdersList.tsx:22-35 | the four known statuses get their fixed labels; any other status is its own label |
| OrdersList.MissingStatusShownPending | src/components/Orders/OrdersList.tsx:131 | an order with a missing or empty status shows "Pending" |
| OrdersList.TypeBadge | src/components/Orders/OrdersList.tsx:37-49 | "Inbound" exactly for type `inbound`, "Outbound" for everything else |
| OrdersList.SearchOrders | src/components/Orders/OrdersList.tsx:16-20 | subsequence of the orders; exactly the orders whose number, assigned worker's name or type contains the term, ignoring case; the empty term keeps every order |
| OrdersList.UnassignedOrderMatches | src/components/Orders/OrdersList.tsx:18 | an order without a worker matches only through its number or its type |
| OrdersList.ItemCount | src/components/Orders/OrdersList.tsx:134 | the number of lines, 0 when the list is missing |
| OrdersList.PreviewLabels | src/components/Orders/OrdersList.tsx:136-138 | at most two labels, one per line among the first two, each the catalog name or `Item <id>` |
| OrdersList.PreviewText | src/components/Orders/OrdersList.tsx:136-139 | the labels joined by ", ", followed by "..." exactly when the order has more than two lines |
| OrdersList.EllipsisIffLinesHidden | src/components/Orders/OrdersList.tsx:139 | the ellipsis appears exactly when some line is not among those listed |
| OrdersList.ShortOrderPreview | src/components/Orders/OrdersList.tsx:136-139 | one or two lines are listed in full, separated by a comma |
| WorkersList.PerformanceScore | src/components/Workers/WorkersList.tsx:22-24 | the score is the midpoint of accuracy and productivity, between the two, and within 0..100 when both are |
| WorkersList.PerformanceBadge | src/components/Workers/WorkersList.tsx:26-31 | Excellent iff score >= 95, Good iff 90 <= score < 95, Average iff 80 <= score < 90, Needs Improvement iff below 80 |
| WorkersList.BadgeMonotone | src/components/Workers/WorkersList.tsx:26-31 | a higher score never earns a lower badge |
| WorkersList.SeedScores | backend-code/prisma/seed.js:112-163 | two seeded workers score 96.85 (Excellent) and 92.75 (Good); accuracy and productivity 0 score 0 (Needs Improvement) |
| WorkersList.SearchWorkers | src/components/Workers/WorkersList.tsx:16-20 | subsequence of the workers; exactly those whose name, email or position contains the term, ignoring case; the empty term keeps all |
| WorkersList.ActiveCount | src/components/Workers/WorkersList.tsx:46 | the number of active workers, never more than the number of workers, and all of them when all are active |
| WorkersList.ActiveCountAppend | src/components/Workers/WorkersList.tsx:46 | the active count of two lists together is the sum of their active counts |
| WorkersList.AveragePerformance | src/components/Workers/WorkersList.tsx:47-49 | 0 for no workers; otherwise the average times the number of workers is the total score |
| WorkersList.AverageWithinBounds | src/components/Workers/WorkersList.tsx:47-49 | when every score lies in [lo, hi] so does the average |
| WorkersList.AverageIsPercentage | src/components/Workers/WorkersList.tsx:47-49 | with every accuracy and productivity a percentage, the average is a percentage |
| WorkersList.TotalOrdersProcessed | src/components/Workers/WorkersList.tsx:50 | 0 for no workers; one worker's count for one; non-negative when no count is negative |
| WorkersList.TotalOrdersAddWorker | src/components/Workers/WorkersList.tsx:50 | adding a worker adds that worker's count, so with non-negative counts the total never decreases |
| WorkersList.SeedActiveCount | backend-code/prisma/seed.js:112-163 | four of the five seeded workers are active |
| WorkersList.SeedTotalOrders | backend-code/prisma/seed.js:112-163 | the seeded workers have processed 619 orders |
| AuthContext.UserPermissions | src/contexts/AuthContext.tsx:148 | a role in the table gets its row; a name inherited from `Object.prototype` finds something that is not a list; any other role gets the empty list |
| AuthContext.TableRolesAreOwnNames | src/contexts/AuthContext.tsx:21-26 | none of the four roles of the table is a name inherited from `Object.prototype` |
| AuthContext.HasPermission | src/contexts/AuthContext.tsx:146-150 | no profile is granted nothing; the check throws exactly when the profile's role is an inherited name; an admin profile is granted everything |
| AuthContext.NoProfileNoPermission | src/contexts/AuthContext.tsx:147 | without a profile no permission is granted |
| AuthContext.HasPermissionIffGranted | src/contexts/AuthContext.tsx:21-26 | the check for a signed-in role returns whether the role's row grants the permission (all for admin, the listed ones for the other three roles, none for an unknown role), and throws for an inherited name |
| AuthContext.AdminHasEveryPermission | src/contexts/AuthContext.tsx:146-150 | an admin profile has every permission, whatever its name |
| AuthContext.UnknownRoleHasNoPermission | src/contexts/AuthContext.tsx:146-150 | a role missing from the table has no permission, unless it is an inherited name, for which the check throws |
| Sidebar.Shown | src/components/Layout/Sidebar.tsx:37 | an open entry passes; for a guarded entry the test throws exactly when `hasPermission` does; when the user is an admin and nothing throws, the entry passes; otherwise a guarded entry passes exactly when `hasPermission` grants it or the user is an admin |
| Sidebar.FilterEntries | src/components/Layout/Sidebar.tsx:36-38 | the filter throws exactly when some entry's test throws; otherwise a subsequence of the entries holding exactly those whose test passes |
| Sidebar.FilteredMenuItems | src/components/Layout/Sidebar.tsx:36-38 | the menu filter throws exactly when the profile's role is an inherited name |
| Sidebar.MenuThrowsIff | src/components/Layout/Sidebar.tsx:36-38 | some entry's test throws exactly when the profile's role is an inherited name |
| Sidebar.InheritedRoleMenuThrows | src/components/Layout/Sidebar.tsx:36-38 | a profile whose role is an inherited name makes the filter throw |
| Sidebar.OpenEntriesAlwaysShown | src/components/Layout/Sidebar.tsx:24-38 | whenever the menu is built, the dashboard and settings entries are in it |
| Sidebar.RoleSeesEntry | src/components/Layout/Sidebar.tsx:36-38 | for a non-admin user, an entry is shown exactly when it needs no permission or the profile's role grants its permission |
| Sidebar.FinanceMenu | src/components/Layout/Sidebar.tsx:24-38 | a finance profile sees the dashboard, analytics and settings entries, in that order |
| Sidebar.FinanceMenuIds | src/components/Layout/Sidebar.tsx:24-38 | the finance menu's ids are dashboard, analytics, settings |
| Sidebar.NoProfileMenu | src/components/Layout/Sidebar.tsx:24-38 | with no profile loaded and a user who is not an admin, only the dashboard and settings are shown |
| Sidebar.OpenEntriesOnly | src/components/Layout/Sidebar.tsx:24-38 | a role that is not an inherited name and whose permissions grant none of the guarded entries sees only the dashboard and settings |
| Sidebar.StaffMenu | src/components/Layout/Sidebar.tsx:24-38 | a warehouse_staff profile sees only the dashboard and settings |
| Sidebar.UnknownRoleMenu | src/components/Layout/Sidebar.tsx:24-38 | a role outside the permission table sees only the dashboard and settings, except an inherited name, which makes the filter throw |
| Sidebar.ManagerAndAdminMenu | src/components/Layout/Sidebar.tsx:24-38 | warehouse_manager and admin profiles see the whole menu |
| Sidebar.AdminUserSeesWholeMenu | src/components/Layout/Sidebar.tsx:37 | a signed-in admin user sees the whole menu whatever the profile, unless the profile's role is an inherited name, which makes the filter throw |
| CreateOrderModal.Apply | src/components/Orders/CreateOrderModal.tsx:65 | the named field takes the new value; the other two fields keep theirs |
| CreateOrderModal.AddLine | src/components/Orders/CreateOrderModal.tsx:53-55 | one more line; the earlier lines unchanged; the new last line blank |
| CreateOrderModal.WithoutIndex | src/components/Orders/CreateOrderModal.tsx:59 | drops exactly the line at an index in range, keeping the others in order; any other index keeps the list |
| CreateOrderModal.RemoveLine | src/components/Orders/CreateOrderModal.tsx:57-61 | with more than one line, removes exactly the line at an index in range; a single line is never removed, so a non-empty list stays non-empty |
| CreateOrderModal.RemoveUndoesAdd | src/components/Orders/CreateOrderModal.tsx:53-61 | removing the line just added restores the list |
| CreateOrderModal.UpdateLine | src/components/Orders/CreateOrderModal.tsx:63-68 | same length; only the line at the index changes, by the update; all other lines unchanged |
| CreateOrderModal.LastUpdateWins | src/components/Orders/CreateOrderModal.tsx:63-68 | two updates of the same field of the same line leave the second value |
| CreateOrderModal.UpdatesOfDifferentLinesCommute | src/components/Orders/CreateOrderModal.tsx:63-68 | updates of two different lines can be made in either order |
| CreateOrderModal.SubmittedLines | src/components/Orders/CreateOrderModal.tsx:40 | a subsequence of the lines holding exactly the lines with an item chosen |
| CreateOrderModal.BlankLineNotSubmitted | src/components/Orders/CreateOrderModal.tsx:40 | adding a blank line does not change what is submitted |
| CreateOrderModal.CompleteLinesAllSubmitted | src/components/Orders/CreateOrderModal.tsx:40 | when every line has an item, every line is submitted |
| CreateOrderModal.FindEntry | src/components/Orders/CreateOrderModal.tsx:133 | the first entry of the list with the chosen id, and none exactly when no entry has that id |
| CreateOrderModal.SelectItemAsWritten | src/components/Orders/CreateOrderModal.tsx:131-136 | same length, and every other line unchanged; when the item is found the line at the index takes only its price and keeps its old id, otherwise it takes the chosen id |
| CreateOrderModal.SelectedItemIsLost | src/components/Orders/CreateOrderModal.tsx:131-136 | when the chosen item is in the list, the line keeps its old item id; a fresh form then submits no line |
| CreateOrderModal.SelectItem | src/components/Orders/CreateOrderModal.tsx:131-136 | the line at the index takes the chosen id and keeps its quantity; its price becomes the item's when the item is found and stays otherwise; every other line unchanged |
| CreateOrderModal.ChosenItemIsSubmitted | src/components/Orders/CreateOrderModal.tsx:131-136 | after choosing an item the line is submitted; a fresh form submits exactly the chosen item, quantity 1, at the item's price |
| CreateOrderModal.LastSix | src/components/Orders/CreateOrderModal.tsx:34 | the last six characters, or the whole string when shorter |
| CreateOrderModal.OrderNumber | src/components/Orders/CreateOrderModal.tsx:34 | starts with "ORD-", followed by one to six digits, at most ten characters in all |
| CreateOrderModal.OrderNumberDigits | src/components/Orders/CreateOrderModal.tsx:34 | the digits after "ORD-" read back as the clock reading modulo 1000000 |
| CreateOrderModal.OrderNumberFullLength | src/components/Orders/CreateOrderModal.tsx:34 | a clock reading of at least 100000 gives exactly ten characters |
| CreateOrderModal.WorkerOrNone | src/components/Orders/CreateOrderModal.tsx:39 | no worker exactly when none is selected; otherwise the selected one |
| CreateOrderModal.OrderForm.constructor | src/components/Orders/CreateOrderModal.tsx:20-25 | closed, inbound, no worker, one blank line |
| CreateOrderModal.OrderForm.AddOrderItem | src/components/Orders/CreateOrderModal.tsx:53-55 | the lines become `AddLine` of the old lines; nothing else changes; the list stays non-empty |
| CreateOrderModal.OrderForm.RemoveOrderItem | src/components/Orders/CreateOrderModal.tsx:57-61 | the lines become `RemoveLine` of the old lines; nothing else changes; the list stays non-empty |
| CreateOrderModal.OrderForm.UpdateOrderItem | src/components/Orders/CreateOrderModal.tsx:63-68 | the lines become `UpdateLine` of the old lines; nothing else changes |
| CreateOrderModal.OrderForm.SelectOrderItemAsWritten | src/components/Orders/CreateOrderModal.tsx:131-136 | the handler as written: the lines become `SelectItemAsWritten` of the old lines; nothing else changes; the list stays non-empty |
| CreateOrderModal.OrderForm.SelectOrderItem | src/components/Orders/CreateOrderModal.tsx:131-136 | the corrected handler from the Findings table, not the code as written: the lines become `SelectItem` of the old lines; nothing else changes; the list stays non-empty |
| CreateOrderModal.OrderForm.Reset | src/components/Orders/CreateOrderModal.tsx:43-47 | back to the initial state: closed, inbound, no worker, one blank line |
| CreateOrderModal.OrderForm.HandleSubmit | src/components/Orders/CreateOrderModal.tsx:30-51 | sends the order number for the clock reading, the type, the worker if one is selected, and the submitted lines, all taken from the state before the call; on success the dialog is reset to its initial state; on failure nothing changes |

## Left out

- Rendering, routing, the Prisma and Supabase calls, HTTP status codes and
  error responses, and the React hooks that load data. The model takes the
  loaded lists as parameters.
- The other routes and pages: order and worker routes, profiles, the
  dashboard, analytics, settings, the layout and the login form.
- Session handling in the authentication context (sign-in, sign-out,
  reload). `user?.role` in the sidebar is a separate parameter.
- Floating point. Prices, percentages and sums are exact reals, so the
  rounding of JavaScript numbers is not modelled.
- `toFixed(2)` on the order value and on the stock value. The model's
  values are unrounded; `InventoryRoutes.ComputeStats` returns the exact
  sum rather than its rounding to two decimals.
- WorkersList.PerformanceScore: does not model the rounding to one decimal
  (`toFixed(1)`). A score within 0.05 of a badge threshold may therefore get
  a different badge in the application than `PerformanceBadge` of the exact
  score.
- WorkersList.AveragePerformance: averages the exact scores rather than the
  one-decimal roundings the page adds up.
- `parseInt` and `parseFloat` in the `PUT` route are parameters of
  `SanitizeUpdates`. A `NaN` result is not modelled. Neither is the `NaN`
  that makes a number falsy.
- `new Date()` in the `PUT` route and `Date.now()` in the dialog are
  parameters (`now`).
- `toLowerCase` is modelled as ASCII lower-casing. Unicode case mapping is
  not modelled.
- `createOrder` is a parameter of `HandleSubmit` (`created`) saying whether
  the call succeeded. The network call and its pending state are not
  modelled.
- A `TypeError` from `hasPermission` is an outcome of the model's check and
  of the sidebar filter. What React then does with the exception is not
  modelled.
- The setters for the dialog's open state, order type and worker are plain
  assignments and are not modelled as separate operations.
- Orders have no status transitions in this core. Only the display of a
  status is modelled.

## Findings

| source | as written | input that shows it | evidently intended | confidence | as-written member | corrected member |
|---|---|---|---|---|---|---|
| backend-code/routes/inventory.js:49-56 | the bucket of an item is decided by `currentStock / minStockLevel`, which is `NaN` for `0 / 0`, and every comparison with `NaN` is false | an item with `currentStock` 0 and `minStockLevel` 0 | each item is listed under the status the inventory list shows for it (here critical) | not executed | InventoryRoutes.EmptyItemWithZeroMinimumInNoBucket | InventoryRoutes.FilterByStockStatusCorrected |
| backend-code/routes/inventory.js:49-56 | a negative minimum, which the create and update routes accept (lines 135 and 161), turns every comparison of the ratio round | an item with `currentStock` 5 and `minStockLevel` -10: ratio -0.5, listed as critical | each item is listed under the status the inventory list shows for it (here good) | not executed | InventoryRoutes.NegativeMinimumListedCritical | InventoryRoutes.FilterByStockStatusCorrected |
| src/components/Orders/CreateOrderModal.tsx:131-136 | both `updateOrderItem` calls build their list from the `orderItems` of the same render (line 64), so the second `setOrderItems`, which carries only the new price, replaces the first, which carries the item id | a new line, then any item of the inventory list chosen for it: the line keeps an empty item id and is dropped on submit (line 40) | the line takes the chosen item id and its price, and is submitted | not executed | CreateOrderModal.SelectedItemIsLost | CreateOrderModal.SelectItem |
