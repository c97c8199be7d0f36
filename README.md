# ShopEase checkout and admin console, modelled in Dafny

ShopEase is a React storefront with an admin console. This project models the parts of its front
end that make decisions:

- **Checkout** (`Checkout`, from `CartPage.tsx`):
  - the card-number formatter (digits only, at most sixteen, in groups of four) and brand detection;
  - the `MM/YY` expiry formatter;
  - the ordered validation of the payment form, including the expiry-month comparison;
  - the order request built from the cart;
  - the step machine cart → payment → processing → success, which returns to payment when the
    order is refused.
- **Products** (`AdminProducts`): the catalogue search, the stock colour, and the create/edit form.
  Opening a product in the form and saving it unchanged sends the product's own values back. The
  model also covers the create/update choice and deletion with its confirmation.
- **Orders** (`AdminOrders`):
  - the customer lookup table and the newest-first order list, sorted in place;
  - the search and status filter;
  - the status options with their labels and the status menu;
  - the row texts and the status update.
- **Users** (`AdminUsers`): the newest-first user list, the search and role filter, and the two
  role counts.
- **Dashboard** (`AdminDashboard`): the four statistics, the five most recent orders with their
  customers, and the low-stock panel with its colours.
- **Layout** (`AdminLayout`): the navigation items, which item is highlighted for a path, and the
  sidebar on small screens.
- **Shared** (`Types`, `Text`, `Lists`):
  - the record types;
  - the string operations the pages rely on: JavaScript's `\s`, digit filtering, case mapping,
    `includes`, `slice(-n)`, `String(n)`, `parseInt`, and `String`/`parseFloat` for prices;
  - the list operations `filter`, `slice(0, n)` and the stable newest-first `sort`.

Each page's state is a class. Its fields are the page's React state and its methods are the
handlers. An asynchronous handler is split at its `await`:

- a method for what happens before the request, which returns the request it sends;
- a `…Settled(ok)` method for what happens after the request succeeds or fails.

The outcome of a request is a parameter. Money is held in whole cents, timestamps in
milliseconds, and "now" is a parameter.

## Model

| member | source | states |
|---|---|---|
| `Types.OrElse` | frontend/src/pages/admin/AdminOrdersPage.tsx:178 | `a \|\| b` on an optional text: the value when present and non-empty, otherwise the fallback |
| `Text.StripWhitespace` | frontend/src/pages/CartPage.tsx:37 | removing `\s` leaves no whitespace and never lengthens the text |
| `Text.StripWhitespaceKeepsTheRest` | frontend/src/pages/CartPage.tsx:37 | removing `\s` keeps every other character, as often as it occurs, in order |
| `Text.KeepDigits` | frontend/src/pages/CartPage.tsx:45 | removing every non-digit leaves only digits and never lengthens the text |
| `Text.KeepDigitsKeepsDigits` | frontend/src/pages/CartPage.tsx:45 | removing every non-digit keeps every digit, as often as it occurs, in order |
| `Text.Utf16Length` | frontend/src/pages/CartPage.tsx:78 | `.length` counts UTF-16 code units: between one and two per character, one per character exactly when all lie in the Basic Multilingual Plane |
| `Text.Utf16LengthAppend` | frontend/src/pages/CartPage.tsx:78 | the code units of two texts joined add up |
| `Text.ContainsIff` | frontend/src/pages/admin/AdminProductsPage.tsx:64-65 | `includes` holds exactly when the needle occurs at some offset of the text |
| `Text.EmptySearchMatches` | frontend/src/pages/admin/AdminProductsPage.tsx:63-66 | an empty search matches every field |
| `Text.ShortId` | frontend/src/pages/admin/AdminOrdersPage.tsx:174 | `slice(-n).toUpperCase()` is the last `n` characters (all when shorter), upper-cased |
| `Text.ParseDigits` | frontend/src/pages/CartPage.tsx:87 | `parseInt` of a run of decimal digits is the number it writes |
| `Text.ParseIntToString` | frontend/src/pages/admin/AdminProductsPage.tsx:80-96 | `parseInt(String(n)) === n` for every integer, so the stock survives the edit form |
| `Text.CentsTextRoundTrip` | frontend/src/pages/admin/AdminProductsPage.tsx:79-95 | `parseFloat(String(price))` gives back the price, for every amount in cents |
| `Lists.Filter` | frontend/src/pages/admin/AdminProductsPage.tsx:63-66 | `filter` keeps exactly the elements that pass, each as often as the list holds it |
| `Lists.FilterIsSubsequence` | frontend/src/pages/admin/AdminUsersPage.tsx:42-49 | `filter` keeps the list order |
| `Lists.SortNewestFirst` | frontend/src/pages/admin/AdminUsersPage.tsx:31-33 | the sorted copy is newest first and a permutation of the list |
| `Lists.SortOfSortedIsIdentity` | frontend/src/pages/admin/AdminUsersPage.tsx:31-33 | sorting a list that is already newest first changes nothing |
| `Lists.Take` | frontend/src/pages/admin/AdminDashboard.tsx:59 | `slice(0, n)` is a prefix of length min(n, length) |
| `Lists.TakeNewestIsNewest` | frontend/src/pages/admin/AdminDashboard.tsx:57-59 | the first `n` of a sorted copy are newest first, come from the list, and nothing left out is newer than anything kept |
| `Checkout.DetectCardTypeReadsFirstNonWhitespace` | frontend/src/pages/CartPage.tsx:36-42 | the brand is decided by the first character that is not whitespace (4 Visa, 5 Mastercard, 3 Amex); whitespace alone is unknown |
| `Checkout.CardRun` | frontend/src/pages/CartPage.tsx:48-49 | the first match of `\d{4,16}` in a digit string is its first min(16, n) digits, or empty below four |
| `Checkout.SplitIntoFours` | frontend/src/pages/CartPage.tsx:50-53 | the loop cutting the match into `substring(i, i + 4)` pieces builds exactly the groups of four |
| `Checkout.ChunksShape` | frontend/src/pages/CartPage.tsx:50-53 | the groups concatenate back to the match, every group but the last has four digits, and the last has one to four |
| `Checkout.GroupedLayout` | frontend/src/pages/CartPage.tsx:50-54 | the joined groups have a space at every fifth position and the digits in order everywhere else |
| `Checkout.GroupedDigits` | frontend/src/pages/CartPage.tsx:45-54 | removing the spaces from the joined groups gives the digits back |
| `Checkout.CardNumberGrouped` | frontend/src/pages/CartPage.tsx:44-55 | with four or more digits typed, the formatted number is the first min(16, n) digits in groups of four |
| `Checkout.CardNumberTooShortKept` | frontend/src/pages/CartPage.tsx:54 | with fewer than four digits typed, the typed value is kept as it is |
| `Checkout.CardNumberFormatIdempotent` | frontend/src/pages/CartPage.tsx:44-55 | formatting a formatted card number changes nothing |
| `Checkout.FormattedKeepsBrand` | frontend/src/pages/CartPage.tsx:44-47 | the formatted number shows the same brand as the typed digits |
| `Checkout.ExpiryShape` | frontend/src/pages/CartPage.tsx:57-63 | the formatted expiry is two digits, a slash and up to two digits (the first four typed digits), or fewer than two digits alone |
| `Checkout.ExpiryFormatIdempotent` | frontend/src/pages/CartPage.tsx:57-63 | formatting a formatted expiry changes nothing |
| `Checkout.ValidatePaymentReportsFirstFailure` | frontend/src/pages/CartPage.tsx:76-105 | the form passes exactly when every check passes, and each error is reported exactly when its check fails and all earlier checks pass |
| `Checkout.ParseTwoDigits` | frontend/src/pages/CartPage.tsx:87 | `parseInt` of two digits is their value |
| `Checkout.SlashSplitsExpiry` | frontend/src/pages/CartPage.tsx:86 | `split('/')` of `MM/YY` gives the month and the year |
| `Checkout.MonthOfParsed` | frontend/src/pages/CartPage.tsx:87 | a month `m` and year `y` that parse give month `m` of the year 2000 + `y` |
| `Checkout.ParsedExpiryMonth` | frontend/src/pages/CartPage.tsx:86-88 | an `MM/YY` expiry whose halves parse to `m` and `y` is compared with now as month `m` of 2000 + `y` |
| `Checkout.FormattedExpiryLength` | frontend/src/pages/CartPage.tsx:82 | a formatted expiry has as many code units as characters, so `expiryDate.length` is its character count |
| `Checkout.AstralCvvPasses` | frontend/src/pages/CartPage.tsx:92 | two characters outside the Basic Multilingual Plane make a CVV of length four, which passes the check |
| `Checkout.LettersPassCardLengthCheck` | frontend/src/pages/CartPage.tsx:54-78 | a card number typed as 13 to 19 letters is kept by the formatter and passes the length check |
| `Checkout.WithField` | frontend/src/pages/CartPage.tsx:73 | `{ ...prev, [name]: value }` changes the named field and no other |
| `Checkout.StoredValue` | frontend/src/pages/CartPage.tsx:65-72 | fields other than card number and expiry are stored as typed |
| `Checkout.OrderLines` | frontend/src/pages/CartPage.tsx:157-161 | one order line per cart line, in cart order, with its product id, quantity and price |
| `Checkout.CartPage.constructor` | frontend/src/pages/CartPage.tsx:22-32 | the page starts on the cart step with the panel hidden, an empty form and an unknown brand |
| `Checkout.CartPage.FormatCardNumber` | frontend/src/pages/CartPage.tsx:44-55 | returns the formatted number and records the brand of the typed digits |
| `Checkout.CartPage.HandlePaymentChange` | frontend/src/pages/CartPage.tsx:65-74 | only the named field changes, and card number and expiry are stored formatted; the stored values stay formatter output and the brand stays that of the stored digits |
| `Checkout.CartPage.HandleCheckout` | frontend/src/pages/CartPage.tsx:134-143 | from the cart view, the payment panel opens exactly for a signed-in user with a non-empty cart; otherwise nothing changes |
| `Checkout.CartPage.SubmitPayment` | frontend/src/pages/CartPage.tsx:145-162 | an invalid form sends nothing and keeps the step; a valid one moves to processing and requests an order for the cart's lines |
| `Checkout.CartPage.OrderSettled` | frontend/src/pages/CartPage.tsx:163-176 | a created order moves to success and clears the cart once; a refused one returns to payment with the cart untouched |
| `Checkout.CartPage.SuccessDelayElapsed` | frontend/src/pages/CartPage.tsx:165-170 | after the delay the panel closes and the step is cart again |
| `Checkout.CartPage.CancelPayment` | frontend/src/pages/CartPage.tsx:374 | the Back button hides the panel and keeps the payment step |
| `Checkout.CartPage.DecreaseClicked` | frontend/src/pages/CartPage.tsx:457 | asks the cart for the line's quantity minus one |
| `Checkout.CartPage.IncreaseClicked` | frontend/src/pages/CartPage.tsx:464 | asks the cart for the line's quantity plus one |
| `Checkout.CartPage.RemoveClicked` | frontend/src/pages/CartPage.tsx:471 | asks the cart to remove the line's product |
| `Checkout.CartPage.ClearCartClicked` | frontend/src/pages/CartPage.tsx:423 | asks the cart to clear itself |
| `AdminProducts.FilteredProductsSpec` | frontend/src/pages/admin/AdminProductsPage.tsx:63-66 | the listed products are exactly those whose name or category contains the search (ignoring case), each as often as the catalogue holds it, in catalogue order; an empty search lists all |
| `AdminProducts.UncategorisedMatchesByName` | frontend/src/pages/admin/AdminProductsPage.tsx:65 | a product without a category matches by its name only |
| `AdminProducts.StockToneUnique` | frontend/src/pages/admin/AdminProductsPage.tsx:215-219 | stock 0 is red, 1 to 9 amber, 10 and up emerald; exactly one colour applies to a stock that is not negative, none to a negative one |
| `AdminProducts.WithFormField` | frontend/src/pages/admin/AdminProductsPage.tsx:273-324 | each input's `onChange` replaces its own field of the form and no other |
| `AdminProducts.NullIfEmpty` | frontend/src/pages/admin/AdminProductsPage.tsx:94-98 | `s \|\| null` is null exactly for the empty text |
| `AdminProducts.EditRoundTrip` | frontend/src/pages/admin/AdminProductsPage.tsx:74-99 | saving an opened product unchanged sends its name, price and stock exactly, and each optional text unchanged except that an empty one becomes null |
| `AdminProducts.OptionalTextRoundTrip` | frontend/src/pages/admin/AdminProductsPage.tsx:78-98 | an optional text goes through `\|\| ''` and back through `\|\| null` unchanged when present and non-empty, as null otherwise |
| `AdminProducts.SaveRequestOf` | frontend/src/pages/admin/AdminProductsPage.tsx:101-105 | an update of the edited product's id exactly when a product is being edited, else a creation, with the form's payload |
| `AdminProducts.ProductsPage.constructor` | frontend/src/pages/admin/AdminProductsPage.tsx:39-46 | the page starts loading, with no products, an empty search, the modal closed and the empty form |
| `AdminProducts.ProductsPage.ProductsLoaded` | frontend/src/pages/admin/AdminProductsPage.tsx:52-61 | a fetched catalogue replaces the list and a failed fetch keeps it; loading ends either way |
| `AdminProducts.ProductsPage.SearchChanged` | frontend/src/pages/admin/AdminProductsPage.tsx:158 | the search box sets the search |
| `AdminProducts.ProductsPage.OpenCreateModal` | frontend/src/pages/admin/AdminProductsPage.tsx:68-72 | opens the modal with nothing being edited and the empty form |
| `AdminProducts.ProductsPage.OpenEditModal` | frontend/src/pages/admin/AdminProductsPage.tsx:74-85 | opens the modal editing the product, with its values in the form |
| `AdminProducts.ProductsPage.FormChanged` | frontend/src/pages/admin/AdminProductsPage.tsx:273-324 | typing changes one field of the form |
| `AdminProducts.ProductsPage.CloseModal` | frontend/src/pages/admin/AdminProductsPage.tsx:264 | the close button hides the modal |
| `AdminProducts.ProductsPage.SubmitStart` | frontend/src/pages/admin/AdminProductsPage.tsx:87-105 | saving starts and the request is the update or creation with the form's payload |
| `AdminProducts.ProductsPage.SubmitSettled` | frontend/src/pages/admin/AdminProductsPage.tsx:106-114 | success closes the modal and reloads; failure keeps the modal; saving ends either way |
| `AdminProducts.ProductsPage.DeleteStart` | frontend/src/pages/admin/AdminProductsPage.tsx:117-122 | a declined confirmation sends nothing and changes nothing; otherwise the product is marked and its deletion requested |
| `AdminProducts.ProductsPage.DeleteSettled` | frontend/src/pages/admin/AdminProductsPage.tsx:123-129 | reloads after a success; no product stays marked either way |
| `AdminOrders.BuildUserMap` | frontend/src/pages/admin/AdminOrdersPage.tsx:60-63 | the `forEach` loop builds the lookup table: each id to its user's name and email, later users replacing earlier ones |
| `AdminOrders.UserMapDomain` | frontend/src/pages/admin/AdminOrdersPage.tsx:60-63 | an id is in the table exactly when some fetched user has it |
| `AdminOrders.UserMapLastWins` | frontend/src/pages/admin/AdminOrdersPage.tsx:60-63 | the table holds a user's name and email when no later user has the same id |
| `AdminOrders.SortOrdersNewestFirst` | frontend/src/pages/admin/AdminOrdersPage.tsx:66-68 | the copied and sorted orders are newest first and a permutation of the fetched ones |
| `AdminOrders.InsertNewest` | frontend/src/pages/admin/AdminOrdersPage.tsx:66-68 | one insertion pass extends the newest-first prefix by one and keeps the same orders |
| `AdminOrders.FilteredOrdersSpec` | frontend/src/pages/admin/AdminOrdersPage.tsx:90-96 | the listed orders are exactly those matching the search (id, or the customer's email or name) and the status filter, each as often as the list holds it, in list order; an empty search with all statuses lists all |
| `AdminOrders.UnknownCustomerMatchesById` | frontend/src/pages/admin/AdminOrdersPage.tsx:91-93 | an order whose customer is not in the table matches by its id only |
| `AdminOrders.FindStatusOption` | frontend/src/pages/admin/AdminOrdersPage.tsx:80 | a found option is one of the options and has the status |
| `AdminOrders.StatusOptionsComplete` | frontend/src/pages/admin/AdminOrdersPage.tsx:33-39 | every status has exactly one option, so its label is always found |
| `AdminOrders.FourStatusesSelectable` | frontend/src/pages/admin/AdminOrdersPage.tsx:224 | each order's menu offers exactly the four statuses other than its own |
| `AdminOrders.CustomerName` | frontend/src/pages/admin/AdminOrdersPage.tsx:178 | the customer's name, or "Guest" when unknown or unnamed |
| `AdminOrders.CustomerEmail` | frontend/src/pages/admin/AdminOrdersPage.tsx:179 | the customer's email, or "No email" when unknown or empty |
| `AdminOrders.ItemCount` | frontend/src/pages/admin/AdminOrdersPage.tsx:183 | the number of items, 0 when the order carries none |
| `AdminOrders.OrdersPage.constructor` | frontend/src/pages/admin/AdminOrdersPage.tsx:42-47 | the page starts loading, with no orders, an empty table, an empty search, all statuses and no menu open |
| `AdminOrders.OrdersPage.OrdersLoaded` | frontend/src/pages/admin/AdminOrdersPage.tsx:53-75 | a successful load sets the lookup table from the users and the orders newest first; a failed one keeps both; loading ends either way |
| `AdminOrders.OrdersPage.SearchChanged` | frontend/src/pages/admin/AdminOrdersPage.tsx:124 | the search box sets the search |
| `AdminOrders.OrdersPage.StatusFilterChosen` | frontend/src/pages/admin/AdminOrdersPage.tsx:132-141 | the filter buttons set the status filter |
| `AdminOrders.OrdersPage.DropdownOpenChange` | frontend/src/pages/admin/AdminOrdersPage.tsx:214 | opening a menu makes it the only open one; closing leaves none open |
| `AdminOrders.OrdersPage.UpdateStatusStart` | frontend/src/pages/admin/AdminOrdersPage.tsx:77-79 | choosing a status in an order's menu requests that order's id with that status, which is one of the four the menu enables |
| `AdminOrders.OrdersPage.UpdateStatusSettled` | frontend/src/pages/admin/AdminOrdersPage.tsx:77-88 | success announces the new status by its label and reloads; failure reports the error; the menu closes either way |
| `AdminUsers.LoadedUsers` | frontend/src/pages/admin/AdminUsersPage.tsx:31-33 | the users newest first, a permutation of the fetched ones |
| `AdminUsers.FilteredUsersSpec` | frontend/src/pages/admin/AdminUsersPage.tsx:42-49 | the listed users are exactly those whose name, email or id contains the search and whose role passes the filter, each as often as the list holds it, in list order; an empty search with all roles lists all |
| `AdminUsers.CountsAddUp` | frontend/src/pages/admin/AdminUsersPage.tsx:51-52 | the customer and admin counts add up to the number of users |
| `AdminUsers.CountsIgnoreOrder` | frontend/src/pages/admin/AdminUsersPage.tsx:31-52 | sorting the users changes neither count |
| `AdminUsers.DisplayUserName` | frontend/src/pages/admin/AdminUsersPage.tsx:165 | the name, or "Unnamed User" when absent or empty |
| `AdminUsers.UsersPage.constructor` | frontend/src/pages/admin/AdminUsersPage.tsx:19-22 | the page starts loading, with no users, an empty search and all roles |
| `AdminUsers.UsersPage.UsersLoaded` | frontend/src/pages/admin/AdminUsersPage.tsx:28-40 | a fetched list replaces the users, newest first; a failed fetch keeps them; loading ends either way |
| `AdminUsers.UsersPage.SearchChanged` | frontend/src/pages/admin/AdminUsersPage.tsx:102 | the search box sets the search |
| `AdminUsers.UsersPage.RoleFilterChosen` | frontend/src/pages/admin/AdminUsersPage.tsx:110-124 | the role buttons set the role filter |
| `AdminDashboard.RevenueAppend` | frontend/src/pages/admin/AdminDashboard.tsx:48 | the revenue of two lists is the sum of their revenues, so the left-to-right `reduce` gives the same sum |
| `AdminDashboard.RevenueBounds` | frontend/src/pages/admin/AdminDashboard.tsx:48 | with no negative totals the revenue is at least every order's total and not negative |
| `AdminDashboard.RevenueOfSorted` | frontend/src/pages/admin/AdminDashboard.tsx:48-59 | sorting the orders does not change the revenue |
| `AdminDashboard.FirstUserIndex` | frontend/src/pages/admin/AdminDashboard.tsx:68 | the position of the first user with the id, or the number of users when none has it |
| `AdminDashboard.FindUser` | frontend/src/pages/admin/AdminDashboard.tsx:68 | `find` gives a user with the id, and nothing exactly when no user has it |
| `AdminDashboard.RecentOrders` | frontend/src/pages/admin/AdminDashboard.tsx:61-69 | one row per order of the five newest, in order, each with its customer |
| `AdminDashboard.RecentOrdersAreNewest` | frontend/src/pages/admin/AdminDashboard.tsx:57-59 | at most five rows, five when there are that many, newest first, all fetched orders, none left out newer than one shown |
| `AdminDashboard.RecentOrderCustomer` | frontend/src/pages/admin/AdminDashboard.tsx:68 | each row's customer is the first user with the order's user id, or none when no user has it |
| `AdminDashboard.CustomerLabel` | frontend/src/pages/admin/AdminDashboard.tsx:161 | the customer's name, else the email, else "Guest" |
| `AdminDashboard.DashboardIdIsTailOfOrdersId` | frontend/src/pages/admin/AdminDashboard.tsx:159 | the six-character id on the dashboard is the tail of the eight-character id on the orders page |
| `AdminDashboard.CustomerLookupsAgree` | frontend/src/pages/admin/AdminDashboard.tsx:68 | the dashboard's first-match lookup and the orders page's table know the same ids and agree when ids are unique |
| `AdminDashboard.LowStock` | frontend/src/pages/admin/AdminDashboard.tsx:71 | at most five products, each in the catalogue with stock below ten, a prefix of all such |
| `AdminDashboard.LowStockSpec` | frontend/src/pages/admin/AdminDashboard.tsx:71 | the panel shows the first five low-stock products in catalogue order, all of them when fewer |
| `AdminDashboard.LowStockToneVersusProductsPage` | frontend/src/pages/admin/AdminDashboard.tsx:227 | on the panel the dashboard colours stock 0 to 4 like the products page, but 5 to 9 muted where the products page shows amber |
| `AdminDashboard.DashboardPage.constructor` | frontend/src/pages/admin/AdminDashboard.tsx:34-37 | the page starts loading with zero statistics and empty panels |
| `AdminDashboard.DashboardPage.DataLoaded` | frontend/src/pages/admin/AdminDashboard.tsx:40-78 | a successful load fills the statistics, the recent orders and the low-stock panel from the fetched lists; a failed one keeps them; loading ends either way |
| `AdminLayout.ActiveRule` | frontend/src/components/admin/AdminLayout.tsx:59 | the dashboard item is active on `/admin` only, each other item on every path starting with its own |
| `AdminLayout.AtMostOneActive` | frontend/src/components/admin/AdminLayout.tsx:16-59 | no path highlights two items |
| `AdminLayout.NavPathHighlightsItself` | frontend/src/components/admin/AdminLayout.tsx:58-64 | on an item's own path, that item and no other is highlighted |
| `AdminLayout.TrailingSlashHighlightsNothing` | frontend/src/components/admin/AdminLayout.tsx:59 | `/admin/` highlights no item |
| `AdminLayout.Layout.constructor` | frontend/src/components/admin/AdminLayout.tsx:24-25 | the sidebar starts closed |
| `AdminLayout.Layout.ToggleMenu` | frontend/src/components/admin/AdminLayout.tsx:33 | the menu button flips the sidebar |
| `AdminLayout.Layout.NavLinkClicked` | frontend/src/components/admin/AdminLayout.tsx:61-64 | a link closes the sidebar and goes to the item's path, which highlights that item alone |
| `AdminLayout.Layout.OverlayClicked` | frontend/src/components/admin/AdminLayout.tsx:119-123 | the overlay, shown only while the sidebar is open, closes it |

## Left out

- The cart context (`CartContext`) is not part of this model. The page keeps the cart lines and the signed-in user it was given, and records each call it makes into the context (`cartCalls`). The cart's own quantities and `total()` are not modelled.
- Network and database calls are left out. Each request that changes data is returned by a method, and its success or failure is a parameter of the matching `…Settled` method. A fetch is modelled only by the `…Loaded` method that receives its result, or `None` when it fails.
- `confirm`, `alert`, `toast` and `navigate` are left out. The answer to `confirm` is a parameter. Only the orders page's status-update toast is modelled, as a returned value.
- Checkout.CartPage.SubmitPayment: the 2.5-second simulated payment is left out. It always approves, so a valid form leads straight to the order request. Its toast with the last four digits and `toFixed(2)` is not modelled.
- The clock is a parameter. `Date.now()` is the `nowMs` of the demo user id. The expiry check's "now" is a month index plus the time into that month, in local time. Time zones and the `Date` object are not modelled.
- `generateTestCard` is left out because it uses `Math.random`.
- Floating-point numbers are left out. Prices and totals are whole cents, and `parseFloat` reads at most two fraction digits, truncating the rest. Exponent notation, `Infinity`, `toFixed` and `toLocaleString` are not modelled, and `String(n)` on a very large number (exponent notation) is not either.
- Timestamps are integers, so an invalid ISO date (which sorts as NaN in the source) cannot occur in the model.
- Lists.SortNewestFirst: the contract states order and permutation, not stability. Only `SortOfSortedIsIdentity` says something about ties. The function itself is a stable insertion, as JavaScript's sort is.
- AdminOrders.SortOrdersNewestFirst: the contract states order and permutation, not that orders with equal timestamps keep their fetched order.
- Text.ShortId: counts characters, not UTF-16 code units. An id holding a character outside the Basic Multilingual Plane can make `slice(-n)` cut a surrogate pair, which a sequence of characters cannot represent. The ids the pages shorten are database identifiers. The function also requires `n > 0`, because `slice(-0)` would return the whole text; the pages pass 6 and 8.
- Checkout.ExpiryLengthOk: counts characters, not code units. The two agree on every expiry the page stores, because `FormattedExpiryLength` shows that a formatted expiry is one code unit per character.
- AdminUsers.LoadedUsers: the contract states order and permutation, not that users with equal timestamps keep their fetched order.
- Case mapping covers ASCII letters only. JavaScript's full Unicode `toLowerCase`/`toUpperCase` is not modelled.
- The browser's form validation is not modelled: `maxLength` on the card, expiry and CVV inputs, and `required`, `min` and `step` on the product form. Each handler sees the value exactly as typed.
- `DashboardStats` has no contract of its own: it is the three lengths and `Revenue`. `Revenue` adds from the right, and `RevenueAppend` relates it to the left-to-right `reduce`.
- `StatusLabel`, `ShortOrderId`, `ShortUserId` and `DashboardShortId` have no contract of their own. Their properties are those of `FindStatusOption`, `StatusOptionsComplete` and `ShortId`.
- Rendering (JSX, icons, class names other than the stock colours, loading spinners' markup), the theme toggle and the route guard are left out.
