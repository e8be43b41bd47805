# Table ordering: cart, order submission and order lifecycle

This project models the deterministic core of a restaurant ordering web
application. Customers scan a table's QR code, build a cart on the menu page and
submit an order. Owners follow orders on a dashboard, move them through their
statuses, and manage tables, categories and products.

The model covers two pages:

- **Menu page** (`src/pages/MenuPage.tsx`):
  - the cart and its two rewrites, `addToCart` and `updateQuantity`;
  - the item count and the total price;
  - the grouping of the menu by category;
  - the order row and item rows that `submitOrder` writes;
  - the `submitting` / `orderSent` / `cart` flags around those two writes.
- **Dashboard** (`src/pages/Dashboard.tsx`):
  - the status graph defined by the buttons on each order card;
  - the local list rewrite after a status update;
  - the realtime prepend of a new order;
  - the numbering of generated tables;
  - the guards and `sort_order` of the category and product forms.

Modules:

- `Wrappers` (nullable values).
- `Seqs` (`filter`).
- `Catalog` (product, category and table rows).
- `Text` (JavaScript's `trim`).
- `OrderStatus` (the `order_status` / `payment_method` enums of
  `src/integrations/supabase/types.ts` and the status graph).
- `Cart`.
- `MenuPage` (grouping, order rows, and the `MenuSession` page state).
- `Dashboard` (list rewrites, table rows, form rows, and the `DashboardView`
  state).

Modelling choices:

- Prices are integers in minor currency units.
- Every store write is an input: did it succeed or fail.
- Values the source parses from text are inputs: the table count from
  `parseInt` and the price from `parseFloat`.
- The random order id is an input.

The dashboard offers "cancel" only on a `pending` order
(src/pages/Dashboard.tsx:233-242).

## Model

| member | source | states |
|---|---|---|
| Seqs.Filter | src/pages/MenuPage.tsx:120 | the result is no longer than the input, holds only input elements that pass the test, and holds every input element that passes it |
| Seqs.FilterConcat | src/pages/MenuPage.tsx:209 | filtering distributes over concatenation, so kept elements keep their relative order |
| Seqs.FilterCount | src/pages/MenuPage.tsx:209-211 | a kept value occurs in the result as often as in the input; a rejected value does not occur |
| Seqs.FilterKeepsAll | src/pages/MenuPage.tsx:120 | a filter that every element passes returns its input unchanged |
| OrderStatus.OfferedExactly | src/pages/Dashboard.tsx:233-257 | the offered transitions are exactly pending→confirmed, pending→cancelled, confirmed→preparing, preparing→ready, ready→completed |
| OrderStatus.TerminalAndInitial | src/pages/Dashboard.tsx:233-257 | completed and cancelled, and only they, offer no button; no button leads to pending |
| OrderStatus.PathRaisesRank | src/pages/Dashboard.tsx:233-257 | every transition along a path raises a status rank by at least one |
| OrderStatus.Acyclic | src/pages/Dashboard.tsx:233-257 | a path of one or more transitions never returns to its starting status |
| OrderStatus.PathsAreShort | src/pages/Dashboard.tsx:233-257 | an order changes status at most four times |
| OrderStatus.PendingOnlyFirst | src/pages/Dashboard.tsx:233-257 | pending can only be the first status of a path |
| OrderStatus.RouteFromPending | src/pages/Dashboard.tsx:233-257 | every status is reachable from pending along offered transitions |
| Cart.TotalsAppend | src/pages/MenuPage.tsx:124-125 | the item count and the total price of a concatenation are the sums of those of its parts |
| Cart.AddToCartExisting | src/pages/MenuPage.tsx:104-109 | adding a product already in the cart keeps the length and every product, adds one to that product's entries and leaves the other entries alone |
| Cart.AddToCartQuantities | src/pages/MenuPage.tsx:104-110 | in a valid cart, addToCart adds one to the quantity held of the added product and leaves every other product's quantity alone; existing entries keep their products and places; a new entry appears only when the product was absent |
| Cart.BumpAt | src/pages/MenuPage.tsx:106-108 | with unique ids, the quantity rewrite for the product of entry k rewrites entry k alone |
| Cart.UpdateQuantityAt | src/pages/MenuPage.tsx:115-120 | in a valid cart, updateQuantity replaces the product's entry by one with the new quantity if it is positive and removes it otherwise; entries before and after it are kept in order |
| Cart.UpdateQuantityAbsent | src/pages/MenuPage.tsx:116-120 | updateQuantity for an id not in a cart of positive quantities leaves the cart unchanged |
| Cart.UpdateQuantityPositive | src/pages/MenuPage.tsx:120 | every entry surviving updateQuantity has a positive quantity |
| Cart.AddToCartKeepsValid | src/pages/MenuPage.tsx:104-110 | addToCart keeps ids unique and quantities positive, and the product is then in the cart |
| Cart.UpdateQuantityKeepsValid | src/pages/MenuPage.tsx:115-120 | updateQuantity keeps ids unique and quantities positive |
| Cart.AddToCartTotals | src/pages/MenuPage.tsx:102-125 | addToCart raises the item count by one; the total price rises by the price of the cart's own entry for that product when there is one, and by the added product's price otherwise |
| Cart.UpdateQuantityTotals | src/pages/MenuPage.tsx:114-125 | updateQuantity changes the item count by delta and the total by price×delta when the entry stays, and removes the entry's quantity and price×quantity when it goes |
| Cart.ReplayKeepsValid | src/pages/MenuPage.tsx:102-122 | after any run of add and plus/minus presses, the cart still has unique ids and positive quantities |
| Text.TrimEmptyIffBlank | src/pages/Dashboard.tsx:99 | `trim()` yields the empty string exactly when every character is white space |
| MenuPage.GroupContents | src/pages/MenuPage.tsx:207-210 | there is one group per category, in category order; group i holds exactly the products whose category_id is category i's id, each as often as in the product list |
| MenuPage.GroupKeepsOrder | src/pages/MenuPage.tsx:209 | a group keeps the products in menu order |
| MenuPage.UncategorizedContents | src/pages/MenuPage.tsx:211 | the uncategorized list holds exactly the products whose category_id is null or empty, each as often as in the product list |
| MenuPage.ShownOnMenu | src/pages/MenuPage.tsx:207-211 | a product is shown in some group or among the uncategorized iff its category_id is null, empty or the id of a listed category |
| MenuPage.OrderItemsFromValidCart | src/pages/MenuPage.tsx:151-157 | from a valid cart there is one item per entry, each for at least one unit, no product appears twice, and the items' quantities sum to the cart's totalItems |
| MenuPage.ItemsTotalIsCartTotal | src/pages/MenuPage.tsx:151-157 | the sum of price×quantity over the items equals the cart's total price |
| MenuPage.OrderRowAgreesWithItems | src/pages/MenuPage.tsx:135-143 | the order row copies the table's owner, id and number; its total equals the items' total; it carries the chosen payment method; an empty note becomes null and any other note is kept |
| MenuPage.MenuSession.constructor | src/pages/MenuPage.tsx:58-69 | the page starts with an empty cart, cash payment, an empty note and both flags false |
| MenuPage.MenuSession.AddToCart | src/pages/MenuPage.tsx:102-112 | the cart becomes addToCart of the old cart and stays valid |
| MenuPage.MenuSession.UpdateQuantity | src/pages/MenuPage.tsx:114-122 | the cart becomes updateQuantity of the old cart and stays valid |
| MenuPage.MenuSession.SubmitOrder | src/pages/MenuPage.tsx:128-170 | with no table or an empty cart, nothing changes. Otherwise it writes the order row, then the items. If either write fails, submitting is reset and the cart and orderSent are kept. If both succeed, the cart is emptied, the overlay closed and orderSent set. A placed order's total equals its items' total |
| MenuPage.MenuSession.OrderAgain | src/pages/MenuPage.tsx:200 | the "order again" button clears orderSent and keeps the cart valid |
| Dashboard.WithStatusChangesOnlyStatus | src/pages/Dashboard.tsx:141 | the local rewrite sets the status of the orders with the id; length, order, other fields and other orders are unchanged |
| Dashboard.WithStatusIdempotent | src/pages/Dashboard.tsx:141 | applying the same status update twice gives the same list as applying it once |
| Dashboard.TableRowsNumbering | src/pages/Dashboard.tsx:126-129 | the rows belong to the user and are numbered tableCount+1 … tableCount+count: consecutive, distinct, exactly that range |
| Dashboard.TablesToGenerate | src/pages/Dashboard.tsx:124-129 | nothing is generated for an unparsable, zero or negative count; otherwise exactly count rows |
| Dashboard.NewCategoryRow | src/pages/Dashboard.tsx:99-100 | no row for a blank name; otherwise the name as typed, the user, and sort_order = number of categories |
| Dashboard.NewProductRow | src/pages/Dashboard.tsx:108-116 | no row for a blank name or an empty price field; otherwise an empty category choice becomes null and sort_order = number of products |
| Dashboard.DashboardView.constructor | src/pages/Dashboard.tsx:40-49 | the dashboard starts with empty lists, a table count of zero and empty forms |
| Dashboard.DashboardView.OrderInserted | src/pages/Dashboard.tsx:64-67 | a realtime insert puts the new order first; the old list is an unchanged suffix |
| Dashboard.DashboardView.UpdateOrderStatus | src/pages/Dashboard.tsx:138-143 | a successful update applies the status rewrite to the list; a failed one leaves the list unchanged |
| Dashboard.DashboardView.PressStatusButton | src/pages/Dashboard.tsx:233-257 | a button press on an order card applies the status rewrite with the pressed button's target on success and nothing on failure; that order's other fields stay, its move is an offered transition, and orders with other ids are unchanged |
| Dashboard.DashboardView.AddCategory | src/pages/Dashboard.tsx:98-105 | sends the row of NewCategoryRow; a successful write clears the name field, otherwise the field is kept |
| Dashboard.DashboardView.AddProduct | src/pages/Dashboard.tsx:107-121 | sends the row of NewProductRow; a successful write clears the form, otherwise the form is kept |
| Dashboard.DashboardView.GenerateTables | src/pages/Dashboard.tsx:123-135 | sends the rows of TablesToGenerate; a successful write clears the count field, otherwise the field is kept |

## Left out

- Store reads and queries are not modelled. This covers the menu load by QR token, the `available` and `sort_order` filters, and the dashboard's `fetch*` with its ordering and limit of 50. It also covers the re-fetch after each dashboard write. As a result, the category, product and table-count state changes only through a fetch, which is outside the model.
- The realtime channel is not modelled: subscribing, the owner filter on the channel, and unsubscribing on teardown are transport. Only the handler's prepend is modelled.
- Rendering is not modelled: toasts, navigation, JSX, menu themes, the cart overlay toggle, the payment-method and note inputs, `formatRSD`, `toFixed` and `toLocaleTimeString`.
- Parsing by `parseInt` and `parseFloat` is not modelled: the parsed count and price are inputs. A price that parses to NaN is not represented.
- `crypto.randomUUID` is not modelled: the order id is an input.
- Floating-point prices are modelled as integer minor units.
- Values the store fills in are not modelled: the `pending` status default, ids, timestamps and QR tokens.
- MenuPage.MenuSession.SubmitOrder: the handler is modelled as running to completion with nothing in between; its writes are inputs. So the model does not show that `submitting` is true while a write is pending, and it does not model the disabled submit button. It also does not model cart edits made during the writes with the overlay's +/- buttons (src/pages/MenuPage.tsx:289-295), which stay enabled. Such edits are not in the order, because the items are built from the cart as it was when the handler started (line 151). On success, `setCart([])` at line 167 then discards them.
- MenuPage.MenuSession.SubmitOrder: when the item write fails after the order write succeeded, the order row stays in the store without items (outcome `ItemsRejected`). The source has no rollback, so the model has none.
- Dashboard.DashboardView.PressStatusButton: each press is modelled as running to completion before the next. In the source, the handler awaits its write and then sets the status unconditionally (src/pages/Dashboard.tsx:138-141). The pending card shows two buttons (lines 233-241). So pressing "confirm" and then "cancel" before the first write returns applies confirmed→cancelled, which no button offers. The `Offered` guarantee holds only for presses that do not overlap.
- Dashboard.DashboardView.PressStatusButton: a duplicate of the order in the list can appear when a realtime insert overlaps the initial fetch. Such a duplicate has the same id, so it also takes the new status. For the duplicate, the move is stated only as "unchanged or rewritten", not as an offered transition.
- Other source files are not modelled: authentication (`src/pages/AuthPage.tsx`), the landing-page sections, and the type declarations in `src/integrations/supabase/types.ts`. Only the enums of `types.ts` are used.
- Features that do not appear in the code are not modelled: dashboard analytics (revenue, average order value), table deletion, and subscription-plan gating.
