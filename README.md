# Pizza shop storefront and back office — a Dafny model

This project models the client-side logic of a React storefront and back office for a pizza
restaurant that sells in ETB. The parts modelled:

- **Storefront.** The static menu with its category tabs. A shared cart with a badge count,
  a subtotal and a delivery fee. The routing switch. The role-dependent navigation.
- **Customer order page.** It turns the page's own cart into a `pending` row of the
  `orders` table.
- **Customer's orders view.** It applies pushed order updates and notifications. It keeps an
  unread badge and marks notifications read.
- **Admin consoles.** Order processing, with a status graph, the local list rewrite, the
  customer notification and the per-status tiles. The dashboard figures. User management.
  Menu management. The activity log, with its descriptions, search and filters.

Data are datatypes over unbounded integers and `seq<char>` strings. Components whose state
changes are classes with one field per piece of React state. Each handler is a method with a
`modifies` clause, and its `ensures` ties the new state to a function of the old one. The
properties of those functions are proved as lemmas.

The backend (Supabase) is not modelled. Every call becomes an input: `ok`/`storeOk` flags
for success, `Option` or `Fetch` values for fetched data, and opaque strings for timestamps.
A method that calls the backend returns the request it would send: the order status write,
the notification RPC arguments, the admin-log RPC arguments, the order insert, the menu-item
save, the menu-item id to delete, the user-profile write and the notification read-flag
write.

Modules follow the program's files:

| module | file |
|---|---|
| `Collections`, `Text` | generic sequence and string helpers (`filter`, `includes`, `toLowerCase`, `join`/`split`, number printing) |
| `Orders` | the order row and status shared by the order components |
| `Catalog` | the product, the cart entry and the cart reducers that `App.tsx` and `OrderPage.tsx` both define, verbatim |
| `ManageOrders` | `components/Admin/ManageOrders.tsx` |
| `MyOrders` | `components/Customer/MyOrders.tsx` |
| `OrderPage` | `components/Order/OrderPage.tsx` |
| `App` | `App.tsx` |
| `CartView` | `components/Cart.tsx` |
| `Menu` | `components/Menu.tsx` |
| `AdminDashboard` | `components/Admin/AdminDashboard.tsx` |
| `ManageUsers` | `components/Admin/ManageUsers.tsx` |
| `ManageMenu` | `components/Admin/ManageMenu.tsx` |
| `AdminLogs` | `components/Admin/AdminLogs.tsx` |
| `Header` | `components/Header.tsx` |

Where the code's behaviour may surprise a reader, the model follows the code:

- `updateOrderStatus` does no transition check of its own. Only the buttons restrict the moves.
- Marking a notification read is not optimistic. The local list changes only after the
  store update succeeds.
- `processed_at` is always written, but `processed_by` is null when no user id is at hand.
  So "both set" is not an invariant of the code.
- The notification message keeps a trailing space when there are no admin notes:
  `"... has been <status>. "`.
- A local user row changed by `ManageUsers` does not get a fresh `updated_at`. Only the
  store does.
- No component writes an `order_status_update` log entry. The log view still describes one.
- The static menu's last item (`Soft Drinks`, id 15) repeats item 14 without an image.
- `updateOrderStatus` reads the clock four times: twice for the store write and twice more,
  after the write, for the local copy. The model takes the two pairs as separate inputs, so
  neither equal timestamps nor local stamps equal to the stored ones are assumed.
- A password's length is JavaScript's `length`, in UTF-16 code units: three emoji pass the
  six-character rule.
- A password reset reports success whenever the length guard passes, because
  `logAdminAction` swallows its own errors.

## Model

| member | source | states |
|---|---|---|
| `Orders.StatusNameInjective` | project/src/components/Admin/ManageOrders.tsx:13 | distinct statuses are stored under distinct names |
| `Orders.FindOrder` | project/src/components/Admin/ManageOrders.tsx:82 | a found order is in the list with that id, and "not found" means no order has that id |
| `Orders.FindUnique` | project/src/components/Admin/ManageOrders.tsx:82 | with unique ids, looking up a listed order's id finds exactly that order |
| `ManageOrders.NextActionsAdvance` | project/src/components/Admin/ManageOrders.tsx:319-372 | every move a card offers goes exactly one lifecycle stage forward, and never to `pending` or `cancelled` |
| `ManageOrders.TerminalStatuses` | project/src/components/Admin/ManageOrders.tsx:319-372 | a card offers no move exactly for `rejected`, `delivered` and `cancelled` |
| `ManageOrders.OfferedRunProgresses` | project/src/components/Admin/ManageOrders.tsx:319-372 | along any chain of offered moves the stage rises by one per move, so no status repeats and a chain has at most five statuses |
| `ManageOrders.CancelledUnreachable` | project/src/components/Admin/ManageOrders.tsx:319-372 | from `pending`, no chain of offered moves reaches `cancelled` |
| `ManageOrders.ButtonsMatchGraph` | project/src/components/Admin/ManageOrders.tsx:319-413 | the statuses a card's buttons lead to, directly or through the notes modal, are exactly the moves of the status graph |
| `ManageOrders.ApplyStatusUpdateEffect` | project/src/components/Admin/ManageOrders.tsx:66-79 | the local rewrite keeps the length and leaves other orders untouched; in the target it sets status, notes, processor and both timestamps and keeps every other field |
| `ManageOrders.ApplyStatusUpdateIds` | project/src/components/Admin/ManageOrders.tsx:66-79 | the rewrite keeps every id in place, so unique ids stay unique |
| `ManageOrders.LocalProcessor` | project/src/components/Admin/ManageOrders.tsx:73 | `user?.id \|\| null` is set exactly when the id is present and non-empty, and is then that id |
| `ManageOrders.NotificationKindCases` | project/src/components/Admin/ManageOrders.tsx:88 | `accepted` is announced as success, `rejected` as error, every other status as info, and never as warning |
| `ManageOrders.NotificationMessageContents` | project/src/components/Admin/ManageOrders.tsx:87 | the message starts with the order number, contains the status name, and ends in "Note: <notes>" exactly when the notes are non-empty |
| `ManageOrders.NotificationFor` | project/src/components/Admin/ManageOrders.tsx:82-91 | a notification is requested exactly when the order is in the list; it goes to that order's customer, for that order id and of the status's type |
| `ManageOrders.FilteredOrdersSpec` | project/src/components/Admin/ManageOrders.tsx:150-153 | 'all' shows every order; otherwise exactly the orders with the chosen status, each as often as in the list, in list order |
| `ManageOrders.FilterMatchesTile` | project/src/components/Admin/ManageOrders.tsx:150-162 | a status filter shows as many orders as that status's tile counts |
| `ManageOrders.TilesPartition` | project/src/components/Admin/ManageOrders.tsx:155-162 | the six tiles plus the cancelled orders count every order exactly once |
| `ManageOrders.Console.constructor` | project/src/components/Admin/ManageOrders.tsx:22-26 | an empty list, the 'all' filter, no open modal and empty notes |
| `ManageOrders.Console.Load` | project/src/components/Admin/ManageOrders.tsx:32-47 | fetched rows replace the list, and a failed fetch keeps it |
| `ManageOrders.Console.SetFilter` | project/src/components/Admin/ManageOrders.tsx:23 | a filter button selects that filter; the filter is 'all' or any status but `cancelled` |
| `ManageOrders.Console.OpenActionModal` | project/src/components/Admin/ManageOrders.tsx:319-342 | Accept or Reject on a pending card opens the modal for that order with empty notes, keeping the console invariant |
| `ManageOrders.Console.EditNotes` | project/src/components/Admin/ManageOrders.tsx:393 | typing sets the modal's notes |
| `ManageOrders.Console.CancelModal` | project/src/components/Admin/ManageOrders.tsx:416-419 | Cancel closes the modal and clears the notes |
| `ManageOrders.Console.UpdateOrderStatus` | project/src/components/Admin/ManageOrders.tsx:49-100 | the store write carries status, notes, actor and the first two clock reads; on success the list is rewritten with the later two reads, the notification requested, the modal closed and the notes cleared; on failure nothing changes |
| `ManageOrders.Console.ConfirmModal` | project/src/components/Admin/ManageOrders.tsx:402-413 | the modal's buttons write accepted or rejected with the typed notes and notify the order's customer; on success the modal closes and the notes clear, on failure list, modal and notes stay |
| `ManageOrders.Console.Advance` | project/src/components/Admin/ManageOrders.tsx:344-372 | Start Preparing, Mark as Ready and Mark as Delivered write the button's status with empty notes and notify the card's customer; on success the modal closes and the notes clear, on failure nothing changes |
| `MyOrders.ReplaceOrderEffect` | project/src/components/Customer/MyOrders.tsx:52-56 | a pushed row replaces every order with its id wholesale, and every other order stays |
| `MyOrders.ReplaceOrderAbsent` | project/src/components/Customer/MyOrders.tsx:52-56 | a row for an order the view does not hold changes nothing |
| `MyOrders.MarkReadEffect` | project/src/components/Customer/MyOrders.tsx:133-139 | only notifications with the id change, and in them only `read`, which becomes true |
| `MyOrders.MarkReadIdempotent` | project/src/components/Customer/MyOrders.tsx:133-139 | marking twice is marking once |
| `MyOrders.MarkReadAbsent` | project/src/components/Customer/MyOrders.tsx:133-139 | marking an id the list does not hold changes nothing |
| `MyOrders.MarkReadUnreadCount` | project/src/components/Customer/MyOrders.tsx:212 | with unique ids, marking an unread notification lowers the badge by one; marking a read or absent one leaves it as it was |
| `MyOrders.PrependUnreadCount` | project/src/components/Customer/MyOrders.tsx:73 | a pushed notification raises the badge by one exactly when it is unread |
| `MyOrders.StatusMessagesDistinct` | project/src/components/Customer/MyOrders.tsx:183-200 | each status has its own message, and only `cancelled` falls through to "Order status unknown" |
| `MyOrders.CustomerOrdersAbsent` | project/src/components/Customer/MyOrders.tsx:86-104 | a customer's fetched orders never include an id the table lacks |
| `MyOrders.StatusUpdateAbsent` | project/src/components/Admin/ManageOrders.tsx:66-79 | a status update for an id the list lacks changes nothing |
| `MyOrders.PushMatchesPull` | project/src/components/Customer/MyOrders.tsx:42-60 | after an admin status update, applying the pushed row to the customer's list gives the same list as fetching it again; other customers' lists are unchanged |
| `MyOrders.CustomerView.constructor` | project/src/components/Customer/MyOrders.tsx:31-32 | both lists start empty |
| `MyOrders.CustomerView.LoadOrders` | project/src/components/Customer/MyOrders.tsx:86-104 | fetched orders replace the list, and an error keeps it |
| `MyOrders.CustomerView.LoadNotifications` | project/src/components/Customer/MyOrders.tsx:106-122 | fetched notifications replace the list, and an error keeps it |
| `MyOrders.CustomerView.OnOrderUpdate` | project/src/components/Customer/MyOrders.tsx:51-58 | an UPDATE event replaces the rows with the pushed id and keeps the length and all other rows |
| `MyOrders.CustomerView.OnNotificationInsert` | project/src/components/Customer/MyOrders.tsx:72-75 | an INSERT event prepends the row, and the badge rises by one exactly for an unread row |
| `MyOrders.CustomerView.MarkNotificationAsRead` | project/src/components/Customer/MyOrders.tsx:124-143 | the read-flag write is `(id, read = true)` for the given id; the list is marked only after the store update succeeds |
| `MyOrders.CustomerView.OnNotificationClick` | project/src/components/Customer/MyOrders.tsx:387 | a click sends the read-flag write exactly for an unread card, and the card is marked only when that write succeeds |
| `Catalog.CategoryFilterSpec` | project/src/components/Order/OrderPage.tsx:76-78 | 'all' keeps every item; otherwise exactly the items of that category, each as often as in the menu, in order |
| `Catalog.InCartTail` | project/src/components/Order/OrderPage.tsx:106-109 | an id not at the head is in the cart exactly when it is in the rest |
| `Catalog.ItemQuantitySpec` | project/src/components/Order/OrderPage.tsx:106-109 | the lookup is 0 for an item not in the cart, and otherwise the quantity of its first entry |
| `Catalog.ItemQuantityOfEntry` | project/src/components/Order/OrderPage.tsx:106-109 | with distinct ids, the lookup of an entry's id is that entry's quantity |
| `Catalog.SubtotalExample` | project/src/components/Order/OrderPage.tsx:111 | two pizzas at 280 and fries at 60 total 620 |
| `Catalog.SubtotalAppend` | project/src/components/Order/OrderPage.tsx:111 | subtotal and item count add over concatenated carts |
| `Catalog.TotalsNonNegative` | project/src/components/Order/OrderPage.tsx:111 | with positive quantities and non-negative prices, the subtotal is non-negative and the item count is at least the number of entries |
| `Catalog.IncrementEffect` | project/src/components/Order/OrderPage.tsx:84-88 | entries with the id gain one unit, and the others stay |
| `Catalog.SetQuantityEffect` | project/src/components/Order/OrderPage.tsx:98-102 | entries with the id take the new quantity, and the others stay |
| `Catalog.AddToCartEffect` | project/src/components/Order/OrderPage.tsx:80-92 | an item already in the cart gains one unit in place; a new item is appended with quantity 1 |
| `Catalog.AddToCartDistinct` | project/src/components/Order/OrderPage.tsx:80-92 | adding keeps one entry per item |
| `Catalog.UpdateCartItemDistinct` | project/src/components/Order/OrderPage.tsx:94-104 | updating keeps one entry per item |
| `Catalog.RemoveDistinct` | project/src/components/Order/OrderPage.tsx:96 | removal keeps the ids distinct and leaves no entry with the id |
| `Catalog.UpdateToZeroRemoves` | project/src/components/Order/OrderPage.tsx:95-96 | quantity 0 removes exactly the item's entries and keeps the rest in order |
| `Catalog.UpdateNonZeroSets` | project/src/components/Order/OrderPage.tsx:97-102 | a non-zero quantity is set in place, and the length is kept |
| `Catalog.IncrementQuantity` | project/src/components/Order/OrderPage.tsx:84-88 | the lookup rises by one exactly when the item was in the cart |
| `Catalog.SetQuantityQuantity` | project/src/components/Order/OrderPage.tsx:98-102 | after setting, the lookup is the new quantity if the item was in the cart, and 0 otherwise |
| `Catalog.QuantityAfterAdd` | project/src/components/Order/OrderPage.tsx:80-92 | after adding, the item's lookup is one more than before |
| `Catalog.ItemQuantityAppend` | project/src/components/Order/OrderPage.tsx:90 | an appended entry for a new item is what the lookup finds |
| `Catalog.QuantityAfterUpdate` | project/src/components/Order/OrderPage.tsx:94-104 | after an update, the lookup is the requested quantity, or 0 when removing or when the item was absent |
| `Catalog.AddToCartTotals` | project/src/components/Order/OrderPage.tsx:80-92 | adding raises the subtotal by the item's price and the item count by one |
| `Catalog.IncrementTotals` | project/src/components/Order/OrderPage.tsx:84-88 | one more unit of a cart entry raises the subtotal by its price and the count by one |
| `Catalog.IncrementAbsent` | project/src/components/Order/OrderPage.tsx:84-88 | incrementing an absent id changes nothing |
| `Catalog.SetQuantityAbsent` | project/src/components/Order/OrderPage.tsx:98-102 | setting an absent id changes nothing |
| `Catalog.SetQuantityTotals` | project/src/components/Order/OrderPage.tsx:98-102 | setting an entry's quantity replaces its line in the subtotal and its quantity in the count |
| `Catalog.RemoveTotals` | project/src/components/Order/OrderPage.tsx:96 | removing an entry takes its line out of the subtotal and its quantity out of the count |
| `Catalog.PositiveQuantitiesKept` | project/src/components/Order/OrderPage.tsx:80-104 | adding, and updating to a non-negative quantity, keep every entry's quantity positive |
| `OrderPage.OrderLines` | project/src/components/Order/OrderPage.tsx:127-129 | one line per cart entry, in cart order |
| `OrderPage.OrderLineFree` | project/src/components/Order/OrderPage.tsx:128 | a line whose name and size have no line break has none itself |
| `OrderPage.HeadingLines` | project/src/components/Order/OrderPage.tsx:137 | the text after the last item line splits into an empty line, the heading line and the lines of the notes |
| `OrderPage.OrderDetailsLines` | project/src/components/Order/OrderPage.tsx:127-137 | read back line by line, `order_details` is the cart's lines in order, an empty line, "Additional Details:" and the notes' lines |
| `OrderPage.OrderDetailsEndsWithNotes` | project/src/components/Order/OrderPage.tsx:137 | the details always end with the heading followed by the notes as typed |
| `OrderPage.NewOrderSpec` | project/src/components/Order/OrderPage.tsx:131-140 | the inserted row is a `pending` order of the signed-in user, with the form's name and phone and the cart's total, whose details list the cart before the notes |
| `OrderPage.OrderPageState.constructor` | project/src/components/Order/OrderPage.tsx:26-34 | the form starts from the profile when there is one and blank otherwise; the cart is empty and the tab is 'all' |
| `OrderPage.OrderPageState.SyncProfile` | project/src/components/Order/OrderPage.tsx:48-56 | a loaded profile overwrites name and phone; no profile keeps them |
| `OrderPage.OrderPageState.LoadMenu` | project/src/components/Order/OrderPage.tsx:58-74 | fetched items replace the menu, with none for a null result; an error keeps it |
| `OrderPage.OrderPageState.SelectCategory` | project/src/components/Order/OrderPage.tsx:184 | a tab selects its category |
| `OrderPage.OrderPageState.EditName` | project/src/components/Order/OrderPage.tsx:321 | typing sets the name field |
| `OrderPage.OrderPageState.EditPhone` | project/src/components/Order/OrderPage.tsx:334 | typing sets the phone field |
| `OrderPage.OrderPageState.EditNotes` | project/src/components/Order/OrderPage.tsx:346 | typing sets the notes field |
| `OrderPage.OrderPageState.AddToCart` | project/src/components/Order/OrderPage.tsx:80-92 | the cart becomes the add reducer's result, keeping one entry per item, and the item's lookup rises by one |
| `OrderPage.OrderPageState.UpdateCartItem` | project/src/components/Order/OrderPage.tsx:94-104 | the cart becomes the update reducer's result, keeping one entry per item, and the lookup shows the new quantity |
| `OrderPage.OrderPageState.HandleOrderSubmit` | project/src/components/Order/OrderPage.tsx:113-151 | the browser refuses an empty name or phone first, then the handler an empty cart, then a visitor who is not signed in, and none of these sends anything; otherwise the row is sent with its non-empty name and phone, and only a successful insert empties the cart and clears the notes |
| `App.RenderPageSpec` | project/src/App.tsx:55-107 | each known page other than 'home' mounts one screen of its own, no two pages share one, and an unknown id falls back to the home view |
| `App.CartBadgeSpec` | project/src/App.tsx:117 | adding an item raises the header badge by one; with positive quantities the badge is at least the number of entries |
| `App.Shell.constructor` | project/src/App.tsx:25-27 | the app starts on 'home', with no login modal and an empty cart |
| `App.Shell.Navigate` | project/src/App.tsx:115 | navigation sets the current page |
| `App.Shell.ShowLogin` | project/src/App.tsx:116 | the login modal opens and closes |
| `App.Shell.AddToCart` | project/src/App.tsx:29-41 | the shared cart becomes the add reducer's result, keeping one entry per item |
| `App.Shell.UpdateCartItem` | project/src/App.tsx:43-53 | the shared cart becomes the update reducer's result, keeping one entry per item |
| `CartView.DeliveryFeeRule` | project/src/components/Cart.tsx:23-24 | the fee is 0 exactly above 500 ETB and 50 otherwise; the total exceeds the subtotal by 0 or 50 |
| `CartView.BoundaryFee` | project/src/components/Cart.tsx:23 | a 500 ETB subtotal still pays 50, and 501 pays nothing |
| `CartView.OrderSummarySpec` | project/src/components/Cart.tsx:101-118 | the summary appears exactly for a non-empty cart; the free-delivery note shows exactly when the fee is waived, that is above 500 |
| `CartView.PlusEffect` | project/src/components/Cart.tsx:82 | plus raises the item count by one, the subtotal by the price and the entry's quantity by one |
| `CartView.MinusEffect` | project/src/components/Cart.tsx:73 | minus lowers the item count by one, the subtotal by the price and the quantity by one, and removes an entry that was at 1 |
| `CartView.MinusRemoves` | project/src/components/Cart.tsx:73 | minus on an entry at 1 removes it and takes one unit and one price off the totals |
| `CartView.MinusLowers` | project/src/components/Cart.tsx:73 | minus on an entry above 1 keeps it with one unit less |
| `Menu.MenuIds` | project/src/components/Menu.tsx:34-167 | the fifteen items have ids 1 to 15, pairwise distinct, each in one of the four non-'all' tabs |
| `Menu.ItemControlSpec` | project/src/components/Menu.tsx:247-272 | a card shows the counter exactly for an item with a positive quantity; its minus and plus ask for one less and one more of that id |
| `Menu.AddShowsCounter` | project/src/components/Menu.tsx:266-272 | pressing Add on an item not in the cart turns its button into a counter showing 1 |
| `Menu.FloatingCartButtonSpec` | project/src/components/Menu.tsx:281-289 | with positive quantities, the floating cart button shows exactly for a non-empty cart, labelled with the item count |
| `AdminDashboard.Project` | project/src/components/Admin/AdminDashboard.tsx:28-30 | the query keeps one amount and status per order, in order |
| `AdminDashboard.FetchDashboardStatsSpec` | project/src/components/Admin/AdminDashboard.tsx:25-57 | on success: the order count, the number of 'pending' rows (no greater than the order count), the revenue over all orders and the customer count, each 0 for a null result; any error keeps the initial zeros |
| `AdminDashboard.RevenuePartition` | project/src/components/Admin/AdminDashboard.tsx:44 | revenue adds up over any split of the orders, so every status is counted |
| `AdminDashboard.DashboardMatchesConsole` | project/src/components/Admin/AdminDashboard.tsx:43 | the dashboard's pending figure equals the order console's pending tile over the same table |
| `ManageUsers.FilteredUsersSpec` | project/src/components/Admin/ManageUsers.tsx:176-184 | a user is shown exactly when search, role and status all match, each as often as in the list, in list order; an empty search with both filters on 'all' shows everyone |
| `ManageUsers.SearchIgnoresCase` | project/src/components/Admin/ManageUsers.tsx:177-178 | any term equal, up to case, to a piece of the name or email finds the user |
| `ManageUsers.SearchCaseBlind` | project/src/components/Admin/ManageUsers.tsx:177-178 | names, emails and terms that agree up to case give the same name-or-email verdict |
| `ManageUsers.UpdateWhereEffect` | project/src/components/Admin/ManageUsers.tsx:74-78 | only rows with the id are rewritten, and the length is kept |
| `ManageUsers.SetStatusEffect` | project/src/components/Admin/ManageUsers.tsx:74-78 | the rows with the id take the new status and keep every other field; other rows stay |
| `ManageUsers.SetRoleEffect` | project/src/components/Admin/ManageUsers.tsx:104-108 | the rows with the id take the new role and keep every other field; other rows stay |
| `ManageUsers.MergeProfileEffect` | project/src/components/Admin/ManageUsers.tsx:157-161 | the rows with the id take the supplied name and phone and keep all other fields |
| `ManageUsers.MergeNothing` | project/src/components/Admin/ManageUsers.tsx:157-161 | an empty update changes nothing |
| `ManageUsers.PasswordRule` | project/src/components/Admin/ManageUsers.tsx:123 | a new password is accepted exactly when it has at least 6 UTF-16 code units: always from 6 characters, never under 3, and from exactly 6 characters for text in the Basic Multilingual Plane |
| `ManageUsers.PasswordCountsCodeUnits` | project/src/components/Admin/ManageUsers.tsx:123 | three emoji are accepted, being six code units, and five letters are refused |
| `ManageUsers.UsersConsole.constructor` | project/src/components/Admin/ManageUsers.tsx:19-26 | no users, an empty search, both filters on 'all', nothing being edited and no reset dialog |
| `ManageUsers.UsersConsole.Load` | project/src/components/Admin/ManageUsers.tsx:32-47 | fetched users replace the list, with none for a null result; an error keeps it |
| `ManageUsers.UsersConsole.SetFilters` | project/src/components/Admin/ManageUsers.tsx:229-246 | the search box and both selects set their filters |
| `ManageUsers.UsersConsole.UpdateUserStatus` | project/src/components/Admin/ManageUsers.tsx:62-90 | the profile write sets the new status on the given user with the write's clock; on success the rows take the new status and a `user_status_update` log is requested; on failure nothing changes and nothing is logged |
| `ManageUsers.UsersConsole.UpdateUserRole` | project/src/components/Admin/ManageUsers.tsx:92-120 | the profile write sets the new role on the given user with the write's clock; on success the rows take the new role and a `user_role_update` log is requested; on failure nothing changes and nothing is logged |
| `ManageUsers.UsersConsole.UpdateUserProfile` | project/src/components/Admin/ManageUsers.tsx:145-174 | the profile write carries the given field updates for the given user; on success the update is merged, the editor closes and a `user_profile_update` log is requested; on failure nothing changes |
| `ManageUsers.UsersConsole.StartEdit` | project/src/components/Admin/ManageUsers.tsx:332 | the edit button opens the editor on that user |
| `ManageUsers.UsersConsole.EditDraft` | project/src/components/Admin/ManageUsers.tsx:378-389 | typing changes only the draft's name and phone |
| `ManageUsers.UsersConsole.CancelEdit` | project/src/components/Admin/ManageUsers.tsx:413 | cancel closes the editor |
| `ManageUsers.UsersConsole.SubmitEdit` | project/src/components/Admin/ManageUsers.tsx:364-367 | submitting writes the draft's name and phone to the draft's user |
| `ManageUsers.UsersConsole.OpenPasswordReset` | project/src/components/Admin/ManageUsers.tsx:339 | the key button opens the reset dialog for that user |
| `ManageUsers.UsersConsole.TypePassword` | project/src/components/Admin/ManageUsers.tsx:445 | typing sets the new password |
| `ManageUsers.UsersConsole.CancelPasswordReset` | project/src/components/Admin/ManageUsers.tsx:465-466 | cancel closes the dialog and clears the password |
| `ManageUsers.UsersConsole.ResetUserPassword` | project/src/components/Admin/ManageUsers.tsx:122-143 | a password under 6 UTF-16 code units is refused with nothing sent or changed; otherwise a `password_reset` log is requested and the dialog closes and clears |
| `ManageMenu.FilteredItemsSpec` | project/src/components/Admin/ManageMenu.tsx:143-145 | 'all' shows every item; otherwise exactly the items of that category, each as often as in the list, in order |
| `ManageMenu.BlankFormIncomplete` | project/src/components/Admin/ManageMenu.tsx:291 | the blank form cannot be submitted until its required fields are filled |
| `ManageMenu.RemoveByIdSpec` | project/src/components/Admin/ManageMenu.tsx:114 | deletion keeps exactly the items with another id, in order, and shrinks the list by the number removed |
| `ManageMenu.RemoveByIdCount` | project/src/components/Admin/ManageMenu.tsx:114 | kept items plus removed items make up the whole list |
| `ManageMenu.MenuAdmin.constructor` | project/src/components/Admin/ManageMenu.tsx:20-46 | an empty list, nothing being edited, the form hidden and blank, and the 'all' tab |
| `ManageMenu.MenuAdmin.Load` | project/src/components/Admin/ManageMenu.tsx:52-67 | fetched items replace the list, with none for a null result; an error keeps it |
| `ManageMenu.MenuAdmin.SelectCategory` | project/src/components/Admin/ManageMenu.tsx:187 | a tab selects its category |
| `ManageMenu.MenuAdmin.HandleDelete` | project/src/components/Admin/ManageMenu.tsx:103-120 | nothing is sent without confirmation, and a confirmed delete is sent for the given id; a confirmed, successful delete removes exactly the items with that id |
| `ManageMenu.MenuAdmin.HandleEdit` | project/src/components/Admin/ManageMenu.tsx:122-126 | editing fills the form from the item, marks it as being edited and shows the form |
| `ManageMenu.MenuAdmin.OpenAddForm` | project/src/components/Admin/ManageMenu.tsx:174 | Add shows the form |
| `ManageMenu.MenuAdmin.ResetForm` | project/src/components/Admin/ManageMenu.tsx:128-132 | reset gives the blank form, with nothing being edited and the form hidden |
| `ManageMenu.MenuAdmin.ChangeForm` | project/src/components/Admin/ManageMenu.tsx:134-141 | an edit of a field gives the new form data |
| `ManageMenu.MenuAdmin.HandleSubmit` | project/src/components/Admin/ManageMenu.tsx:69-101 | a form missing a required field, or with a negative price, sends nothing; otherwise an update of the edited item's id stamped with the clock, or an insert when nothing is edited; a successful save reloads the list and resets the form; a failed save changes nothing |
| `AdminLogs.WithAdminName` | project/src/components/Admin/AdminLogs.tsx:43-46 | the log is kept, and the admin name is its profile's name, or "Unknown Admin" when that is missing or empty |
| `AdminLogs.FetchLogs` | project/src/components/Admin/AdminLogs.tsx:30-55 | fetched logs replace the list one for one, each given its admin name; null gives none, and an error keeps the old list |
| `AdminLogs.KindOfKnown` | project/src/components/Admin/AdminLogs.tsx:75-88 | an action falls to the generic description exactly when it is none of the five known types |
| `AdminLogs.DescriptionAroundTarget` | project/src/components/Admin/AdminLogs.tsx:72-89 | every description is some text, the target id, then some text |
| `AdminLogs.DescriptionNamesTarget` | project/src/components/Admin/AdminLogs.tsx:72-89 | every description contains the target id |
| `AdminLogs.DescriptionNamesValue` | project/src/components/Admin/AdminLogs.tsx:76-79 | status and role descriptions contain the new status or role from the details |
| `AdminLogs.DescriptionGeneric` | project/src/components/Admin/AdminLogs.tsx:86-87 | a description starts with "Performed " exactly for an unknown action type |
| `Text.IncludesEmpty` | project/src/components/Admin/AdminLogs.tsx:103-105 | an empty search term occurs in every string |
| `AdminLogs.FilteredLogsSpec` | project/src/components/Admin/AdminLogs.tsx:102-130 | a log is shown exactly when search, action and date range all match, each as often as in the list, in list order; with nothing filtered every log shows |
| `AdminLogs.ActionTypeList` | project/src/components/Admin/AdminLogs.tsx:132 | one action type per log, in order |
| `AdminLogs.ActionTypesSpec` | project/src/components/Admin/AdminLogs.tsx:132 | the action filter options are the logs' action types, each once, ordered by the position of their first appearance |
| `Header.GetNavItemsSpec` | project/src/components/Header.tsx:49-56 | the public items come first; then the admin items for an admin, the customer items for a signed-in customer, and nothing for a visitor; a non-admin never sees an admin item |
| `Header.NavTargetsKnown` | project/src/components/Header.tsx:26-56 | every nav entry leads to a page the routing switch knows, and none is listed twice |
| `Header.OrderButtonSpec` | project/src/components/Header.tsx:138-150 | admins get no Order button; others get one leading to the order page when signed in and to the menu otherwise, badged only for a positive cart count |
| `Header.WelcomeName` | project/src/components/Header.tsx:118 | the greeting names the profile, falling back to "User" when the name is missing or empty |

## Left out

- Backend calls (Supabase queries, RPCs, inserts and deletes) are inputs: a success flag and
  the returned data. Server-side ordering and `limit` are not modelled; a fetched list is
  taken as the store returns it. The `available` filter of the order page's menu query is the
  same kind of input.
- The realtime channel lifecycle (subscribe and unsubscribe) is not modelled. Each pushed
  event is one method call.
- Clocks and timers are inputs: `new Date().toISOString()` is an opaque string. The log
  view's date-range filter is a predicate parameter, since it compares with the current time.
- `formatDate`, locale formatting, icons, colours, toasts, loading spinners and all rendering.
- Prices are whole ETB integers. JavaScript floating point and `parseFloat` in the menu form
  are not modelled.
- Lower-casing covers ASCII letters only; full Unicode case folding is not modelled.
- The `details` object of the profile-update log is kept as a timestamp only; the nested
  `updates` record is not modelled. The password itself is never sent anywhere by the code,
  and the model sends nothing either.
- The Header's scroll listener, the mobile-menu toggle and the sign-out call. The cart
  panel's `showPayment` toggle and the menu's `showCart` toggle.
- The Supabase client setup and its generated row types are not part of this model.
- `Catalog.AddToCartTotals` requires that cart entries with the item's id hold the same
  product (same price). The code copies the item into the entry, so this holds whenever the
  entries came from `addToCart`.
- `Menu.FloatingCartButtonSpec` and `App.CartBadgeSpec` state the entry-count bound only for
  positive quantities. The code can hold a negative quantity only after an explicit update
  to one.
- `Catalog.PositiveQuantitiesKept` requires a non-negative requested quantity. The Cart and
  Menu controls never request less than 0 for an entry at 1 or more.
- `ManageMenu.MenuAdmin.HandleSubmit` models the form's `required` fields and `min="0"`, but
  not the browser's URL-format check of `type="url"` or the `step="0.01"` check on the price,
  since those are the browser's own rules.
- `ManageOrders.Console.UpdateOrderStatus` requires the move to be one the card offers. The
  code does no check of its own; the buttons are the only callers.
- `ManageOrders.Console.Load` is modelled with the modal closed. The code fetches once, on
  mount, before any modal can open.
