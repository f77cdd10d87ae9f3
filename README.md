# Eyewear shop client state, modelled in Dafny

This project models the client-side state layer of an Angular eyewear shop. The shop has a customer
storefront and an admin back office, and all data lives in the browser.

It models:

- **The collection stores.** These are the product, customer, order and user/session services. Each
  keeps a list in memory and mirrors the whole list into `localStorage` after every change:
  - `add` assigns `max(id) + 1`, appends the record and rolls back if the write fails;
  - `update` and `delete` look the record up by id (by order number for orders) and answer `null`
    or `false` when it is missing;
  - on load, a stored snapshot wins. A corrupt snapshot is removed and the list is seeded again
    from the bundled JSON file.
- **The cart and the wishlist.** The cart is a list with at most one line per product id, each of
  quantity at least 1. The wishlist is the set of id strings selected for checkout. The model also
  covers the components that drive both: cart, cart line, product detail and the payment page,
  including the order it builds.
- **The translation and formatting rules.** These cover the order-status maps between the shop and
  the admin views, the status/payment/shipping labels, the thousand-separator price pipe, the
  admin page title, the admin route guard and the customer CSV export.
- **The list derivations.** These are the case-insensitive admin searches and selection sets, the
  related-products selection and its carousel slides, the collection grouping and the home-page
  slide indices.
- **The form validators.** These are the add/edit product dialogs, login, sign-up, forgot-password
  (digit extraction and code check) and reset-password.

How the model represents what it cannot run:

- **Storage.** `localStorage` is the class `Persistence.LocalStorage` over a `map<string, string>`.
  Whether the page runs in a browser is a `browser` flag on each service. Whether a `setItem`
  succeeds is a `writeOk` input, so quota failures are an explicit case.
- **JSON.** `JSON.stringify`/`JSON.parse` are an abstract `Codec` whose `decode` may fail. Where a
  proof needs the round trip, it requires the codec to be `Lawful`: decoding an encoded value gives it
  back.
- **Seed fetches.** The HTTP fetch of a seed file is an `Option<seq<T>>` input, where `None` is a
  failed fetch.
- **Outputs.** Observables become returned values: `Outcome` (next or error) or `Option` (`null`).
  Router navigation, `alert` texts and `EventEmitter` emissions are returned values too.
- **Clock and randomness.** Clock readings are integer inputs. A random shuffle is any permutation.

## Model

| member | source | states |
|---|---|---|
| Persistence.LocalStorage.GetItem | src/app/customer-app/services/platform.service.ts:24-34 | a read returns the stored value exactly when the key is present |
| Persistence.LocalStorage.SetItem | src/app/customer-app/services/platform.service.ts:36-47 | a successful write stores the value under the key; a failed write changes nothing; other keys are untouched |
| Persistence.LocalStorage.RemoveItem | src/app/customer-app/services/platform.service.ts:49-60 | removing a key deletes that key and only that key |
| Persistence.Written | src/app/admin-app/services/product.service.ts:141-151 | after a write, the key holds the new text only when the write succeeded; every other key keeps its value |
| Persistence.ReadStored | src/app/admin-app/services/product.service.ts:77-92 | a stored snapshot is absent (server side, missing key or empty text), corrupt (it does not decode) or parsed (the decoded value) |
| Persistence.ReadWritten | src/app/admin-app/services/product.service.ts:79-84 | with a lawful codec, reading back what was just written yields the written value |
| Persistence.Seed | src/app/admin-app/services/product.service.ts:99-122 | the seeded list is the fetched list, or `[]` when the fetch fails; it is written under its key only in the browser and only when the write succeeds; a failed fetch writes nothing unless the store persists `[]` on error; other keys are untouched |
| Persistence.Load | src/app/admin-app/services/product.service.ts:70-97 | a parseable snapshot is used as is; a corrupt one is removed and the list re-seeded; a missing one is seeded; off the browser, storage is never consulted |
| Persistence.LoadOtherKeys | src/app/admin-app/services/product.service.ts:70-122 | loading a store never changes any other storage key |
| Persistence.ServerLoadIgnoresStorage | src/app/admin-app/services/product.service.ts:60-67 | off the browser the loaded list does not depend on storage, and storage is left unchanged |
| Persistence.ReloadWritten | src/app/admin-app/services/product.service.ts:77-84 | after a list has been persisted, loading the store again yields that list and changes nothing |
| Persistence.LoadIsStable | src/app/admin-app/services/product.service.ts:70-122 | once a load has written its snapshot, a second load returns the same list and storage |
| Persistence.FailedSeedRefetches | src/app/admin-app/services/product.service.ts:116-120 | a failed seed publishes `[]` and writes nothing, so the next load fetches the seed again |
| Persistence.Persist | src/app/admin-app/services/product.service.ts:141-154 | the list is written under its key in the browser; success is reported unless a browser write failed |
| Persistence.LoadInto | src/app/admin-app/services/product.service.ts:70-122 | the published list and the storage afterwards are exactly those `Load` describes |
| Text.Lower | src/app/admin-app/pages/OrderManagementPage/OrderManagementPage.ts:60 | lowercasing keeps the length and maps every upper-case letter to its lower-case letter |
| Text.LowerIdempotent | src/app/admin-app/pages/OrderManagementPage/OrderManagementPage.ts:84-88 | lowercasing twice is lowercasing once |
| Text.Trim | src/app/customer-app/pages/LoginPage/LoginPage.ts:39-40 | the trimmed text occurs in the input, has no whitespace at either end, and is empty exactly when the input is blank |
| Text.Digits | src/app/customer-app/pages/ForgotPasswordPage/ForgotPasswordPage.ts:52 | the result is at most as long as the input, all digits, and holds a character exactly when the input holds it and it is a digit |
| Text.NatToString | src/app/customer-app/pipes/price.pipe.ts:12 | the decimal text of a number is non-empty and all digits, and starts with `0` only for zero |
| Text.NatToStringRoundTrip | src/app/customer-app/pipes/price.pipe.ts:12 | reading the decimal text back gives the number |
| Text.IntToStringInjective | src/app/customer-app/services/wishlist.service.ts:17 | distinct ids have distinct `toString()` texts, so wishlist membership by text is membership by id |
| Text.NatToStringLength | src/app/customer-app/pipes/price.pipe.ts:12 | a number has at most k digits exactly when it is below 10^k |
| Text.Split | src/app/admin-app/components/EditProductModal/EditProductModal.ts:79 | splitting gives at least one part, and no part contains the separator |
| Text.JoinSplit | src/app/admin-app/components/EditProductModal/EditProductModal.ts:79-82 | joining the parts of a split with the separator gives back the text |
| Text.SplitJoin | src/app/admin-app/pages/UserManagementPage/UserManagementPage.ts:124-138 | splitting a join of separator-free parts gives back the parts |
| Text.SplitTailJoin | src/app/admin-app/components/EditProductModal/EditProductModal.ts:82 | the words after the first, joined by single spaces, are the text after the first space |
| Text.IntToString | src/app/customer-app/services/wishlist.service.ts:17 | `toString()` of a non-negative id is its decimal text, and of a negative id `-` followed by that of its magnitude |
| Records.Filter | src/app/customer-app/services/cart.service.ts:57-61 | a filter keeps only elements that pass the test |
| Records.FilterMultiset | src/app/customer-app/services/cart.service.ts:57-61 | a filter keeps every passing element as often as it occurs and drops every failing one |
| Records.FilterSubsequence | src/app/admin-app/services/product.service.ts:203 | a filter keeps the survivors in their original order |
| Records.FilterMembers | src/app/admin-app/pages/OrderManagementPage/OrderManagementPage.ts:85-89 | an element is in the filtered list exactly when it is in the list and passes the test |
| Records.FilterAppend | src/app/customer-app/pages/PaymentPage/PaymentPage.ts:108 | filtering a concatenation is concatenating the filtered parts |
| Records.FilterFilter | src/app/customer-app/pages/PaymentPage/PaymentPage.ts:161-174 | two successive filters are one filter by the conjunction |
| Records.FilterLength | src/app/admin-app/services/customer.service.ts:213 | the length of a filter is the number of passing elements |
| Records.FirstIndex | src/app/admin-app/services/product.service.ts:167 | `findIndex` finds a matching position with no match before it, and reports none exactly when nothing matches |
| Records.Find | src/app/customer-app/services/cart.service.ts:36 | `find` returns the first matching element of the list (no earlier element matches), and returns one exactly when some element matches |
| Records.MaxFrom | src/app/admin-app/services/product.service.ts:230 | the reduce with `Math.max` bounds every id and the start value, and is one of them |
| Records.NextIdFresh | src/app/admin-app/services/product.service.ts:229-232 | the next id is at least 1, greater than every existing id, and so not in use |
| Records.NextIdLeast | src/app/admin-app/services/product.service.ts:229-232 | the next id is the least positive number above every existing id |
| Records.NextIdEmpty | src/app/admin-app/services/product.service.ts:229-232 | the first id of an empty list is 1 |
| Records.FilterKeepsUnique | src/app/admin-app/services/product.service.ts:203 | deleting by filter keeps ids unique |
| Records.AppendNextIdKeepsUnique | src/app/admin-app/services/product.service.ts:130-135 | appending a record with the next id keeps ids unique |
| Records.ReplaceKeepsUnique | src/app/admin-app/services/product.service.ts:170-171 | replacing a record with one of the same id keeps ids unique |
| Records.RemoveKeyShrinks | src/app/admin-app/services/product.service.ts:200-203 | deleting an id that is present makes the list strictly shorter and leaves no record with that id |
| Records.KeySet | src/app/admin-app/pages/UserManagementPage/UserManagementPage.ts:66 | the set of the listed records' keys (customer ids here, order ids in the orders page's select-all) holds exactly the keys of some record, and is no larger than the list |
| Records.Toggled | src/app/customer-app/services/wishlist.service.ts:21-29 | a toggle flips membership of exactly the given element |
| Records.ToggleTwice | src/app/customer-app/services/wishlist.service.ts:21-29 | toggling the same element twice restores the set |
| Sorting.Insert | src/app/customer-app/pages/OrderHistoryPage/OrderHistoryPage.ts:63-66 | inserting adds exactly the one element |
| Sorting.InsertKeepsOrder | src/app/customer-app/pages/OrderHistoryPage/OrderHistoryPage.ts:63-66 | inserting into a newest-first list keeps it newest-first |
| Sorting.SortDesc | src/app/customer-app/pages/OrderHistoryPage/OrderHistoryPage.ts:63-66 | the sorted list is a permutation of the input, non-increasing by the key; `SortDescStable` adds that it is stable |
| Sorting.SortDescSorted | src/app/admin-app/pages/OrderManagementPage/OrderManagementPage.ts:51 | a list already newest first, ties included, is left as it is |
| Sorting.InsertKeepsTies | src/app/customer-app/pages/OrderHistoryPage/OrderHistoryPage.ts:63-66 | inserting passes only larger keys, so the elements of each key keep their order |
| Sorting.SortDescStable | src/app/customer-app/pages/OrderHistoryPage/OrderHistoryPage.ts:63-66 | the sort is stable: for every key, its elements come out in input order |
| Cart.CountFromIsSum | src/app/customer-app/services/cart.service.ts:64-66 | the item-count reduce from a start value is the start value plus the quantity sum |
| Cart.TotalPrice | src/app/customer-app/services/cart.service.ts:20-23 | `totalPrice` is the sum of price × quantity over the lines (with `TotalsAppend` and `TotalsAfterSet`), never negative when no line total is |
| Cart.TotalItems | src/app/customer-app/services/cart.service.ts:25-28 | `totalItems` is the sum of the quantities (with `TotalsAppend`); in a cart whose quantities are all at least 1 it is at least the number of lines |
| Cart.GetItemsCount | src/app/customer-app/services/cart.service.ts:64-66 | the reduce from 0 in `getItemsCount` always equals `totalItems` |
| Cart.GetItemsCountIsTotalItems | src/app/customer-app/services/cart.service.ts:25-28 | `getItemsCount` always equals `totalItems`, as a lemma for proofs about the cart |
| Cart.TotalsAppend | src/app/customer-app/services/cart.service.ts:20-27 | `totalPrice` (sum of price × quantity) and `totalItems` (sum of quantities) add up over concatenations |
| Cart.AfterAdd | src/app/customer-app/services/cart.service.ts:35-43 | a new id is appended with quantity 1 after the unchanged lines; a present id keeps the length and raises that line's quantity by 1 |
| Cart.AfterUpdateQuantity | src/app/customer-app/services/cart.service.ts:46-54 | a quantity below 1 changes nothing; otherwise lines with that id get the quantity, and length, order and other lines are kept |
| Cart.AfterRemove | src/app/customer-app/services/cart.service.ts:57-61 | every line with that id is removed, the rest keep their order, and an absent id changes nothing |
| Cart.AddKeepsValid | src/app/customer-app/services/cart.service.ts:35-43 | adding keeps ids unique and quantities at least 1 |
| Cart.UpdateQuantityKeepsValid | src/app/customer-app/services/cart.service.ts:46-54 | updating a quantity keeps ids unique and quantities at least 1 |
| Cart.RemoveKeepsValid | src/app/customer-app/services/cart.service.ts:57-61 | removing keeps ids unique and quantities at least 1 |
| Cart.AddNewTotals | src/app/customer-app/services/cart.service.ts:41 | adding a new product raises the piece count by 1 and the total by its price |
| Cart.AddExistingTotals | src/app/customer-app/services/cart.service.ts:38-39 | adding a product already in the cart raises the piece count by 1 and the total by the price stored earlier |
| Cart.AddExistingIsUpdateAt | src/app/customer-app/services/cart.service.ts:38-39 | adding a present id is the same as setting that line's quantity one higher, with its earlier price and fields |
| Cart.OneMoreAt | src/app/customer-app/services/cart.service.ts:20-27 | one more piece on a line raises `totalItems` by 1 and `totalPrice` by that line's unit price |
| Cart.OneMorePiece | src/app/customer-app/services/cart.service.ts:21 | one more piece adds exactly the unit price to the line total |
| Cart.TotalsAfterSet | src/app/customer-app/services/cart.service.ts:20-27 | changing one line's quantity changes the totals by exactly that line's difference |
| Cart.CartService.AddItem | src/app/customer-app/services/cart.service.ts:35-43 | the new cart is `AfterAdd` of the old one |
| Cart.CartService.UpdateQuantity | src/app/customer-app/services/cart.service.ts:46-54 | the new cart is `AfterUpdateQuantity` of the old one |
| Cart.CartService.RemoveItem | src/app/customer-app/services/cart.service.ts:57-61 | the new cart is `AfterRemove` of the old one |
| Cart.CartService.constructor | src/app/customer-app/services/cart.service.ts:17 | the cart starts empty |
| Wishlist.Selected | src/app/customer-app/services/wishlist.service.ts:14-19 | the selected lines are exactly the cart lines whose id text is in the wishlist, in cart order |
| Wishlist.EmptySelectionTotals | src/app/customer-app/services/wishlist.service.ts:35-48 | with an empty wishlist the selected total and count are 0 |
| Wishlist.SelectedCountBounded | src/app/customer-app/services/wishlist.service.ts:43-48 | `wishlistCount` is between 0 and the cart's `totalItems` |
| Wishlist.FullSelectionTotals | src/app/customer-app/services/wishlist.service.ts:14-19 | when every line is selected, the selection is the whole cart and the selected totals are the cart totals |
| Wishlist.WishlistService.ToggleItem | src/app/customer-app/services/wishlist.service.ts:21-29 | toggling flips membership of exactly the given code |
| Wishlist.WishlistService.ClearWishlist | src/app/customer-app/services/wishlist.service.ts:35-37 | clearing empties the set, after which `totalPrice` and `wishlistCount` are 0 |
| Wishlist.WishlistService.AddAllItems | src/app/customer-app/services/wishlist.service.ts:39-41 | the set becomes exactly the given codes, replacing rather than adding to the old set |
| Wishlist.WishlistService.TotalPrice | src/app/customer-app/services/wishlist.service.ts:14-19 | `totalPrice` is 0 for an empty wishlist and the cart's `totalPrice` when every line is selected |
| Wishlist.WishlistService.WishlistCount | src/app/customer-app/services/wishlist.service.ts:43-48 | `wishlistCount` lies between 0 and the cart's `totalItems`, is 0 for an empty wishlist and is all of `totalItems` when every line is selected |
| Wishlist.WishlistService.IsItemInWishlist | src/app/customer-app/services/wishlist.service.ts:31-33 | true exactly when the code is in the set, so `toggleItem` flips the answer |
| Wishlist.WishlistService.constructor | src/app/customer-app/services/wishlist.service.ts:9 | the selection starts empty |
| Products.NextProductId | src/app/admin-app/services/product.service.ts:229-232 | `generateNextId` is at least 1 and above every product id |
| Products.WithNextId | src/app/admin-app/services/product.service.ts:131-134 | the added record is the argument with only its id replaced by the next id |
| Products.WithoutProduct | src/app/admin-app/services/product.service.ts:203 | every product with the id is dropped, and the others remain in order |
| Products.MutatorsKeepIdsUnique | src/app/admin-app/services/product.service.ts:128-227 | add, update-in-place and delete all keep product ids unique |
| Products.ProductService.constructor | src/app/admin-app/services/product.service.ts:57-97 | the published list and the storage are those of the load-or-seed rule for `products` |
| Products.ProductService.AddProduct | src/app/admin-app/services/product.service.ts:128-162 | one record with the next id is appended and persisted; if the browser write fails, the list reverts and an error is signalled |
| Products.ProductService.UpdateProduct | src/app/admin-app/services/product.service.ts:164-195 | the first record with the id is replaced and returned, and a failed write is not rolled back; an unknown id returns `null` and changes nothing |
| Products.ProductService.DeleteProduct | src/app/admin-app/services/product.service.ts:197-227 | the answer is true exactly when the id exists, in which case every record with it is removed and the list persisted; otherwise nothing changes |
| Customers.NextCustomerId | src/app/admin-app/services/customer.service.ts:228-231 | `generateNextId` is at least 1 and above every customer id |
| Customers.WithNextId | src/app/admin-app/services/customer.service.ts:111-116 | the added record is the argument with only its id replaced by the next id |
| Customers.WithoutCustomer | src/app/admin-app/services/customer.service.ts:184 | every customer with the id is dropped, and the others remain in order |
| Customers.MutatorsKeepIdsUnique | src/app/admin-app/services/customer.service.ts:109-208 | add, update-in-place and delete all keep customer ids unique |
| Customers.Stats | src/app/admin-app/services/customer.service.ts:210-226 | `totalCustomers` is the length; `activeCustomers` counts status `Active` and is at most the total; `totalRevenue` is the sum spent; `avgOrderValue` is 0 without orders and otherwise revenue divided by orders |
| Customers.ActiveCount | src/app/admin-app/services/customer.service.ts:213 | the active count is the number of customers whose status is exactly `Active` |
| Customers.CustomerService.constructor | src/app/admin-app/services/customer.service.ts:38-103 | the published list and the storage are those of the load-or-seed rule for `customers` |
| Customers.CustomerService.AddCustomer | src/app/admin-app/services/customer.service.ts:109-143 | one record with the next id is appended and persisted; if the browser write fails, the list reverts and an error is signalled |
| Customers.CustomerService.UpdateCustomer | src/app/admin-app/services/customer.service.ts:145-176 | the first record with the id is replaced and returned; an unknown id returns `null` and changes nothing |
| Customers.CustomerService.DeleteCustomer | src/app/admin-app/services/customer.service.ts:178-208 | the answer is true exactly when the id exists, in which case its records are removed and the list persisted; otherwise nothing changes |
| Customers.CustomerService.GetCustomerStats | src/app/admin-app/services/customer.service.ts:210-226 | the statistics of the current list: the total is its length, active customers are those with status `Active` and at most the total, revenue is the sum spent, and the average times the order count is the revenue (0 without orders) |
| Orders.WithStatus | src/app/customer-app/services/order.service.ts:176-183 | only the chosen order's status changes; length and all other orders are kept |
| Orders.StatusChangeKeepsOrder | src/app/customer-app/services/order.service.ts:179-181 | a status change keeps the order's id, number, items, totals and customer |
| Orders.OrderService.constructor | src/app/customer-app/services/order.service.ts:60-68 | the published list and storage follow the load-or-seed rule for `orders`, where a failed seed also writes `[]` |
| Orders.OrderService.LoadOrders | src/app/customer-app/services/order.service.ts:70-135 | a parseable snapshot wins; a corrupt one is removed and re-seeded; a failed seed publishes `[]` and, in the browser, stores `"[]"` |
| Orders.OrderService.AddOrder | src/app/customer-app/services/order.service.ts:141-171 | the order is appended exactly as given and emitted; a failed browser write reverts the list and signals an error |
| Orders.OrderService.UpdateOrderStatus | src/app/customer-app/services/order.service.ts:173-207 | the first order with that order number (not id) gets the status and is returned; an unknown number returns `null` and changes nothing |
| Auth.Authenticate | src/app/customer-app/services/auth.service.ts:121-124 | a user is found exactly when some email matches case-insensitively with the exact password, and it is the first such user |
| Auth.AuthenticateIgnoresEmailCase | src/app/customer-app/services/auth.service.ts:123 | the case of the typed email does not matter |
| Auth.LoginNavigation | src/app/customer-app/services/auth.service.ts:142-147 | an admin is sent to `/admin` and anyone else to `''` |
| Auth.ResolveUser | src/app/customer-app/services/auth.service.ts:167-199 | the in-memory user wins; otherwise the user is the parsed stored session, or none |
| Auth.RestoreSession | src/app/customer-app/services/auth.service.ts:100-117 | the parsed stored session becomes the current user; an absent or corrupt one leaves nobody current, and only a corrupt one is removed |
| Auth.AuthService.constructor | src/app/customer-app/services/auth.service.ts:36-98 | users follow the load-or-seed rule for `users`; in the browser, the stored session is restored |
| Auth.AuthService.Login | src/app/customer-app/services/auth.service.ts:119-156 | on a match the user becomes current, is stored under `currentUser` and navigation follows the role; otherwise the result is the invalid-credentials failure and the current user is unchanged |
| Auth.AuthService.Logout | src/app/customer-app/services/auth.service.ts:158-165 | `currentUser` is removed from storage (in the browser), the current user becomes `null`, and navigation goes to `/login` |
| Auth.AuthService.GetCurrentUser | src/app/customer-app/services/auth.service.ts:167-199 | the answer is the in-memory user, else the parsed stored session, which is cached; a corrupt value is removed and gives `null` |
| Auth.LookupEntries | src/app/customer-app/services/auth.service.ts:184-195 | the storage `getCurrentUser` leaves keeps every other key with its value, and loses `currentUser` exactly when nobody is in memory and the stored value is corrupt |
| Auth.AuthService.IsLoggedIn | src/app/customer-app/services/auth.service.ts:201-203 | logged in exactly when `getCurrentUser` finds a user; that user (or nobody) becomes the current user, a corrupt stored session is removed as `LookupEntries` says, and the user list is kept |
| Auth.AuthService.IsAdmin | src/app/customer-app/services/auth.service.ts:205-208 | admin exactly when `getCurrentUser` finds a user with role `admin`; the found user becomes current, storage is left as `LookupEntries` says, and the user list is kept |
| Auth.AuthService.RefreshCurrentUser | src/app/customer-app/services/auth.service.ts:215-232 | the current user becomes the parsed stored session, or `null` when it is absent or corrupt, and a corrupt value is not removed |
| Auth.LoginIsRemembered | src/app/customer-app/services/auth.service.ts:133 | with a lawful codec, a session stored at login is found again by `getCurrentUser` after a reload |
| OrderManagementPage.MapOrderStatus | src/app/admin-app/pages/OrderManagementPage/OrderManagementPage.ts:59-67 | the result is always one of the four admin statuses; it ignores case, maps `shipped` to `shipping`, `cancelled` to `delivered`, and anything unknown to `pending` |
| OrderManagementPage.MapToOriginalStatus | src/app/admin-app/pages/OrderManagementPage/OrderManagementPage.ts:69-77 | the map ignores case, sends `shipping` to `shipped`, and returns unknown input unchanged |
| OrderManagementPage.MapOrderStatusIgnoresCase | src/app/admin-app/pages/OrderManagementPage/OrderManagementPage.ts:60 | mapping the lowercased status is mapping the status |
| OrderManagementPage.ShopStatusRoundTrip | src/app/admin-app/pages/OrderManagementPage/OrderManagementPage.ts:59-77 | for pending, processing, shipped and delivered, mapping there and back gives the lowercased status |
| OrderManagementPage.CancelledIsLost | src/app/admin-app/pages/OrderManagementPage/OrderManagementPage.ts:64 | `cancelled` comes back as `delivered`, so the round trip loses it |
| OrderManagementPage.AdminStatusRoundTrip | src/app/admin-app/pages/OrderManagementPage/OrderManagementPage.ts:59-77 | each admin status survives the map to the shop status and back |
| OrderManagementPage.AdminView | src/app/admin-app/pages/OrderManagementPage/OrderManagementPage.ts:31-49 | the admin row has the order number (or the id text), the status `MapOrderStatus` of the shop status, the customer's name, email and phone, the total, the date, one line per item, and the address joined with commas |
| OrderManagementPage.FilteredOrders | src/app/admin-app/pages/OrderManagementPage/OrderManagementPage.ts:79-90 | a blank term keeps every order; otherwise exactly the orders whose id, name or email contains the lowercased term, in order |
| OrderManagementPage.QuantityFromIsSum | src/app/admin-app/pages/OrderManagementPage/OrderManagementPage.ts:151 | the reduce from a start value is the start value plus the quantity sum |
| OrderManagementPage.GetTotalItems | src/app/admin-app/pages/OrderManagementPage/OrderManagementPage.ts:150-152 | the item count is the sum of the item quantities |
| OrderManagementPage.OrderManagementPageComponent.LoadOrders | src/app/admin-app/pages/OrderManagementPage/OrderManagementPage.ts:28-57 | the rows are the store's orders as admin rows, newest first |
| OrderManagementPage.OrderManagementPageComponent.ToggleSelectAll | src/app/admin-app/pages/OrderManagementPage/OrderManagementPage.ts:92-98 | the selection becomes the ids of the filtered rows when the box is checked, and empty otherwise |
| OrderManagementPage.OrderManagementPageComponent.ToggleOrderSelection | src/app/admin-app/pages/OrderManagementPage/OrderManagementPage.ts:100-109 | only that id flips, then select-all holds exactly when the selection size equals the filtered count |
| OrderManagementPage.OrderManagementPageComponent.UpdateOrderStatus | src/app/admin-app/pages/OrderManagementPage/OrderManagementPage.ts:121-143 | when a row has the event's id and the store has an order with that number, the store's order gets the mapped-back status and is persisted, and the live subscription rebuilds the page's rows from the store's new list, newest first; otherwise nothing changes |
| OrderManagementPage.UpdatedRowStatus | src/app/customer-app/services/order.service.ts:173-186 | after an update, the rebuilt list holds the updated order's row, showing `mapOrderStatus` of the stored status; an admin status shows as picked |
| OrderManagementPage.UpdatedRowExamples | src/app/admin-app/pages/OrderManagementPage/OrderManagementPage.ts:125-133 | a picked `Shipping` shows as `shipping` and a `cancelled` as `delivered` once the list is rebuilt, not as written into the old row |
| OrderManagementPage.OrderManagementPageComponent.constructor | src/app/admin-app/pages/OrderManagementPage/OrderManagementPage.ts:15-22 | the search is empty, nothing is selected and no rows are loaded |
| OrderManagementPage.AdminViews | src/app/admin-app/pages/OrderManagementPage/OrderManagementPage.ts:30-49 | one admin row per order, in order |
| OrderDetailModal.StatusText | src/app/admin-app/components/OrderDetailModal/OrderDetailModal.ts:66-74 | the four admin statuses get their labels and any other text is returned unchanged |
| OrderDetailModal.StatusTextInjective | src/app/admin-app/components/OrderDetailModal/OrderDetailModal.ts:66-74 | distinct admin statuses get distinct labels |
| OrderDetailModal.StatusUpdateFor | src/app/admin-app/components/OrderDetailModal/OrderDetailModal.ts:57-62 | an update `{orderId, status}` is emitted exactly when the picked status differs from the order's |
| OrderDetailModal.OrderDetailModalComponent.NgOnInit | src/app/admin-app/components/OrderDetailModal/OrderDetailModal.ts:40-44 | with an order present, the picker is set to its status |
| OrderDetailModal.OrderDetailModalComponent.NgOnChanges | src/app/admin-app/components/OrderDetailModal/OrderDetailModal.ts:46-50 | new inputs are bound, and the picker follows the order's status whenever an order is present |
| OrderDetailModal.OrderDetailModalComponent.UpdateStatus | src/app/admin-app/components/OrderDetailModal/OrderDetailModal.ts:56-64 | the update is emitted only for a changed status, and `close` is emitted in every case |
| OrderDetailModal.UnchangedPickerEmitsNothing | src/app/admin-app/components/OrderDetailModal/OrderDetailModal.ts:46-62 | right after synchronising, saving emits no update |
| OrderDetailModal.OrderDetailModalComponent.constructor | src/app/admin-app/components/OrderDetailModal/OrderDetailModal.ts:33-38 | the dialog starts hidden with no order and no picked status |
| OrderHistoryPage.GetStatusClass | src/app/customer-app/pages/OrderHistoryPage/OrderHistoryPage.ts:86-95 | the class is `status-` plus the lowercased status for the five known statuses, and `status-pending` otherwise |
| OrderHistoryPage.GetStatusText | src/app/customer-app/pages/OrderHistoryPage/OrderHistoryPage.ts:97-106 | the label is `Unknown` exactly for unknown statuses, case-insensitively |
| OrderHistoryPage.LabelsIgnoreCase | src/app/customer-app/pages/OrderHistoryPage/OrderHistoryPage.ts:87-98 | class and label do not depend on letter case |
| OrderHistoryPage.ClassMatchesText | src/app/customer-app/pages/OrderHistoryPage/OrderHistoryPage.ts:86-106 | for a known status the class is `status-` plus the lowercased label; an unknown status gets the pending class but the `Unknown` label |
| OrderHistoryPage.GetPaymentMethodText | src/app/customer-app/pages/OrderHistoryPage/OrderHistoryPage.ts:108-110 | `Cash on Delivery` exactly for `cod`, and `Bank Transfer` otherwise |
| OrderHistoryPage.GetShippingMethodText | src/app/customer-app/pages/OrderHistoryPage/OrderHistoryPage.ts:112-114 | `Express Delivery` exactly for `express`, and `Standard Delivery` otherwise |
| OrderHistoryPage.OrderHistoryPageComponent.LoadAllOrders | src/app/customer-app/pages/OrderHistoryPage/OrderHistoryPage.ts:60-74 | the shown orders are the store's orders sorted newest first, and the store's own list is sorted in place to the same list |
| OrderHistoryPage.OrderHistoryPageComponent.CheckAuthAndLoadOrders | src/app/customer-app/pages/OrderHistoryPage/OrderHistoryPage.ts:31-58 | a user found in memory or in storage stays current, storage is kept, and the orders load newest first; with none after the last attempt, `currentUser` is removed from storage (in a browser), nobody is current and navigation goes to `/login`; the user list and the detail dialog are kept |
| OrderHistoryPage.OrderHistoryPageComponent.NgOnInit | src/app/customer-app/pages/OrderHistoryPage/OrderHistoryPage.ts:23-29 | after re-reading the session, a readable stored session becomes the current user, storage is kept and the orders load newest first, the service's own list sorted in place to match; otherwise the service's list is kept, `currentUser` is removed from storage (in a browser), nobody is current and navigation goes to `/login`; the user list and the detail dialog are kept |
| OrderHistoryPage.OrderHistoryPageComponent.ViewOrderDetail | src/app/customer-app/pages/OrderHistoryPage/OrderHistoryPage.ts:76-79 | the chosen order is selected and the detail is shown |
| OrderHistoryPage.OrderHistoryPageComponent.CloseOrderDetail | src/app/customer-app/pages/OrderHistoryPage/OrderHistoryPage.ts:81-84 | the detail is hidden and the selection cleared |
| OrderHistoryPage.ShownOrdersAreSorted | src/app/customer-app/pages/OrderHistoryPage/OrderHistoryPage.ts:63-66 | the displayed orders are a permutation of the input, non-increasing by creation time |
| OrderHistoryPage.OrderHistoryPageComponent.constructor | src/app/customer-app/pages/OrderHistoryPage/OrderHistoryPage.ts:16-21 | no orders are shown, none is selected and the detail is hidden |
| PaymentPage.ShippingCost | src/app/customer-app/pages/PaymentPage/PaymentPage.ts:52-54 | shipping is 50000 exactly for `express`, and 35000 otherwise |
| PaymentPage.VoucherDiscount | src/app/customer-app/pages/PaymentPage/PaymentPage.ts:227-236 | the coupon discount is 50000 exactly when the trimmed code is non-empty, and 0 otherwise |
| PaymentPage.OrderNumber | src/app/customer-app/pages/PaymentPage/PaymentPage.ts:186-192 | the order number is `ORD` followed by the last six digits of the clock reading |
| PaymentPage.OrderNumberLength | src/app/customer-app/pages/PaymentPage/PaymentPage.ts:187 | with a clock reading of at least six digits, the order number has nine characters |
| PaymentPage.OrderLine | src/app/customer-app/pages/PaymentPage/PaymentPage.ts:119-127 | an order line copies the cart line, uses the name or else the code, and has total price × quantity |
| PaymentPage.OrderLines | src/app/customer-app/pages/PaymentPage/PaymentPage.ts:119-127 | one order line per cart line, in cart order |
| PaymentPage.LinesTotalIsTotalPrice | src/app/customer-app/pages/PaymentPage/PaymentPage.ts:58-61 | the order lines' totals add up to the cart's `totalPrice` |
| PaymentPage.OrderTotals | src/app/customer-app/pages/PaymentPage/PaymentPage.ts:58-65 | the subtotal is the whole cart's price, selected or not, and the total is subtotal + shipping − member discount − coupon discount |
| PaymentPage.ExpressSurcharge | src/app/customer-app/pages/PaymentPage/PaymentPage.ts:52-65 | choosing express raises the total by exactly 15000 |
| PaymentPage.Unselected | src/app/customer-app/pages/PaymentPage/PaymentPage.ts:161-174 | the kept lines are unselected cart lines, in cart order |
| PaymentPage.SubtotalCountsUnselected | src/app/customer-app/pages/PaymentPage/PaymentPage.ts:58-61 | the subtotal is the selected lines' price plus the unselected lines' price, and the cart splits into the two |
| PaymentPage.UnselectedLineIsCharged | src/app/customer-app/pages/PaymentPage/PaymentPage.ts:58-61 | one unselected line with a positive price makes the charged subtotal exceed the price of what is ordered |
| PaymentPage.NonNegativeTotal | src/app/customer-app/pages/PaymentPage/PaymentPage.ts:58-61 | with non-negative lines the subtotal is non-negative |
| PaymentPage.PlacedOrder | src/app/customer-app/pages/PaymentPage/PaymentPage.ts:115-145 | the saved order carries the selected lines, the shipping and payment choice, the given status and the page totals |
| PaymentPage.PlacedOrderItems | src/app/customer-app/pages/PaymentPage/PaymentPage.ts:119-127 | the order's items are exactly the selected lines in cart order, and their totals add up to the selected price |
| PaymentPage.AfterRemoveIsFilter | src/app/customer-app/services/cart.service.ts:57-61 | removing an id is filtering by a different id |
| PaymentPage.RemoveEachIsFilter | src/app/customer-app/pages/PaymentPage/PaymentPage.ts:161-174 | removing each id in turn is one filter by absence from the ids |
| PaymentPage.SelectedIds | src/app/customer-app/pages/PaymentPage/PaymentPage.ts:163-165 | one id per selected line |
| PaymentPage.RemoveSelectedLeavesUnselected | src/app/customer-app/pages/PaymentPage/PaymentPage.ts:161-174 | removing every selected id leaves exactly the unselected lines, in order |
| PaymentPage.SelectedIdOf | src/app/customer-app/pages/PaymentPage/PaymentPage.ts:163-165 | a cart line's id is among the selected ids exactly when that line is selected |
| PaymentPage.PaymentPageComponent.Pricing | src/app/customer-app/pages/PaymentPage/PaymentPage.ts:52-65 | the subtotal is the price of the whole cart, the shipping follows the delivery choice, and the total is subtotal plus shipping minus both discounts |
| PaymentPage.PaymentPageComponent.UpdateDelivery | src/app/customer-app/pages/PaymentPage/PaymentPage.ts:67-69 | only the delivery choice changes (every other page field is kept) and the shipping follows it |
| PaymentPage.PaymentPageComponent.UpdatePayment | src/app/customer-app/pages/PaymentPage/PaymentPage.ts:71-73 | only the payment choice changes; every other page field is kept |
| PaymentPage.PaymentPageComponent.ApplyVoucher | src/app/customer-app/pages/PaymentPage/PaymentPage.ts:227-236 | only the coupon discount changes, to `VoucherDiscount` of the entered code; every other page field is kept |
| PaymentPage.PaymentPageComponent.ShowOrderConfirmation | src/app/customer-app/pages/PaymentPage/PaymentPage.ts:77-85 | a logged-in user gets the confirmation dialog and anyone else the login dialog, no other page field changes, and the session is left as `getCurrentUser` leaves it |
| PaymentPage.PaymentPageComponent.GenerateOrderNumber | src/app/customer-app/pages/PaymentPage/PaymentPage.ts:186-188 | only the order number changes, to `OrderNumber` of the clock reading |
| PaymentPage.PaymentPageComponent.IsInWishlist | src/app/customer-app/pages/PaymentPage/PaymentPage.ts:207-209 | a line is selected exactly when its id text is in the wishlist |
| PaymentPage.PaymentPageComponent.ToggleWishlist | src/app/customer-app/pages/PaymentPage/PaymentPage.ts:211-213 | the line's id text flips in the wishlist |
| PaymentPage.PaymentPageComponent.IncrementQuantity | src/app/customer-app/pages/PaymentPage/PaymentPage.ts:215-217 | the line's quantity becomes one more |
| PaymentPage.PaymentPageComponent.DecrementQuantity | src/app/customer-app/pages/PaymentPage/PaymentPage.ts:219-225 | above 1 the quantity drops by one; at 1 or less the line is removed |
| PaymentPage.PaymentPageComponent.RemoveSelectedItemsFromCart | src/app/customer-app/pages/PaymentPage/PaymentPage.ts:161-174 | the cart keeps exactly its unselected lines in order, and the wishlist becomes empty |
| PaymentPage.PaymentPageComponent.SaveOrderAndRedirect | src/app/customer-app/pages/PaymentPage/PaymentPage.ts:106-159 | the three outcomes of `SaveOutcome`: with no selected line the prompt shows and nothing changes; a failed save shows the error and nothing changes; otherwise the placed order is appended and stored, the selected lines leave the cart, the wishlist empties and navigation goes to `/orders` |
| PaymentPage.PaymentPageComponent.CompleteOrder | src/app/customer-app/pages/PaymentPage/PaymentPage.ts:87-98 | cash on delivery closes the confirmation and has the three outcomes of saving a `pending` order; other payment methods only set the order number and swap the confirmation for the bank dialog, leaving cart, selection, orders and storage as they were |
| PaymentPage.PaymentPageComponent.ConfirmBankPayment | src/app/customer-app/pages/PaymentPage/PaymentPage.ts:100-104 | the bank dialog closes and, as for any save, the `processing` order has the three outcomes of `SaveOutcome`; no other page field changes |
| PaymentPage.PaymentPageComponent.CloseModal | src/app/customer-app/pages/PaymentPage/PaymentPage.ts:194-196 | only the confirmation dialog closes; every other page field is kept |
| PaymentPage.PaymentPageComponent.CloseBankPaymentModal | src/app/customer-app/pages/PaymentPage/PaymentPage.ts:182-184 | only the bank dialog closes; every other page field is kept |
| PaymentPage.PaymentPageComponent.CloseLoginModal | src/app/customer-app/pages/PaymentPage/PaymentPage.ts:198-200 | only the login dialog closes; every other page field is kept |
| PaymentPage.PaymentPageComponent.GoToLogin | src/app/customer-app/pages/PaymentPage/PaymentPage.ts:202-205 | only the login dialog closes, and navigation goes to `/login` |
| PaymentPage.PaymentPageComponent.constructor | src/app/customer-app/pages/PaymentPage/PaymentPage.ts:29-50 | standard delivery and cash on delivery are chosen, no discount or voucher applies, every dialog is closed and the shipping form is empty |
| PaymentPage.PositiveLineCounts | src/app/customer-app/pages/PaymentPage/PaymentPage.ts:58-61 | with non-negative lines, one positive line makes the subtotal positive |
| PricePipe.Transform | src/app/customer-app/pipes/price.pipe.ts:8-16 | `null` formats to `''`, and every other value ends with `đ` |
| PricePipe.RemoveDotsOfDotted | src/app/customer-app/pipes/price.pipe.ts:12 | deleting the inserted dots gives back the digits |
| PricePipe.ShortNotDotted | src/app/customer-app/pipes/price.pipe.ts:12 | three digits or fewer get no dot |
| PricePipe.DotCountOfDotted | src/app/customer-app/pipes/price.pipe.ts:12 | a text of d digits gets (d − 1) div 3 dots |
| PricePipe.DottedIsJoinedGroups | src/app/customer-app/pipes/price.pipe.ts:12 | the formatted digits are the digit groups joined by `.` |
| PricePipe.Groups | src/app/customer-app/pipes/price.pipe.ts:12 | the first group has 1–3 digits and every later group exactly 3 |
| PricePipe.GroupSizes | src/app/customer-app/pipes/price.pipe.ts:12 | for a natural number, the dot-separated groups have sizes 1–3 and then 3 |
| PricePipe.TransformDigits | src/app/customer-app/pipes/price.pipe.ts:12-15 | for a natural number, deleting the dots and the trailing `đ` gives its decimal text |
| PricePipe.TransformDotCount | src/app/customer-app/pipes/price.pipe.ts:12 | the number of dots is (number of digits − 1) div 3 |
| PricePipe.SmallHasNoDot | src/app/customer-app/pipes/price.pipe.ts:12 | a number below 1000 is printed without a dot |
| PricePipe.NegativeIsSigned | src/app/customer-app/pipes/price.pipe.ts:12 | a negative number formats as `-` followed by the format of its magnitude |
| AdminGuard.Decide | src/app/guards/admin.guard.ts:9-18 | access is granted exactly for a current user with role `admin`, with no navigation; otherwise navigation goes to `/forbidden` |
| AdminGuard.NonAdminRefused | src/app/guards/admin.guard.ts:9-18 | no session, or a customer session, is refused and redirected |
| AdminGuard.CanActivate | src/app/guards/admin.guard.ts:5-19 | the guard's answer is `Decide` of what `getCurrentUser` finds; that user becomes current and a corrupt stored session is removed, as `LookupEntries` says |
| UserManagementPage.FilteredCustomers | src/app/admin-app/pages/UserManagementPage/UserManagementPage.ts:43-55 | a blank term keeps everyone; otherwise exactly those whose name, email or username contains the lowercased term, or whose phone contains it as typed, in order |
| UserManagementPage.AllFlagged | src/app/admin-app/pages/UserManagementPage/UserManagementPage.ts:58-63 | every customer gets the same `selected` flag and is otherwise unchanged |
| UserManagementPage.FlaggedBy | src/app/admin-app/pages/UserManagementPage/UserManagementPage.ts:83-87 | each customer's flag is membership of its id in the selection |
| UserManagementPage.ToExport | src/app/admin-app/pages/UserManagementPage/UserManagementPage.ts:117-119 | the selected customers in list order when any are selected, otherwise everyone |
| UserManagementPage.Cells | src/app/admin-app/pages/UserManagementPage/UserManagementPage.ts:127-137 | a row has exactly one cell per CSV header |
| UserManagementPage.Rows | src/app/admin-app/pages/UserManagementPage/UserManagementPage.ts:127-137 | one row per exported customer, in order |
| UserManagementPage.CsvLines | src/app/admin-app/pages/UserManagementPage/UserManagementPage.ts:124-138 | the CSV splits into the header line followed by exactly one line per exported customer |
| UserManagementPage.HeaderSingleLine | src/app/admin-app/pages/UserManagementPage/UserManagementPage.ts:124-126 | the header is a single line |
| UserManagementPage.RowSingleLine | src/app/admin-app/pages/UserManagementPage/UserManagementPage.ts:127-137 | a customer without line breaks in its text gives a single-line row |
| UserManagementPage.RowsSingleLine | src/app/admin-app/pages/UserManagementPage/UserManagementPage.ts:127-137 | every row of such customers is a single line |
| UserManagementPage.LinesSplit | src/app/admin-app/pages/UserManagementPage/UserManagementPage.ts:138 | joining single lines with `\n` and splitting again gives the lines back |
| UserManagementPage.RowCells | src/app/admin-app/pages/UserManagementPage/UserManagementPage.ts:127-137 | for comma-free values a row splits into its cells, with only full name and city quoted and email and phone raw |
| UserManagementPage.UserManagementPageComponent.LoadCustomers | src/app/admin-app/pages/UserManagementPage/UserManagementPage.ts:25-41 | the page list is the store's customers, all unflagged |
| UserManagementPage.UserManagementPageComponent.ToggleSelectAll | src/app/admin-app/pages/UserManagementPage/UserManagementPage.ts:57-70 | every flag is set to the box, and the selection becomes the filtered ids or empty |
| UserManagementPage.UserManagementPageComponent.ToggleCustomerSelection | src/app/admin-app/pages/UserManagementPage/UserManagementPage.ts:72-89 | only that id flips; every flag then equals membership, and select-all holds when the selection size equals the filtered count |
| UserManagementPage.UserManagementPageComponent.DeleteCustomer | src/app/admin-app/pages/UserManagementPage/UserManagementPage.ts:91-108 | an unconfirmed delete changes nothing; a confirmed one of a present customer deletes through the store, which writes the shorter list under `customers`, and drops the customer from the page and from the selection; an absent one changes nothing |
| UserManagementPage.UserManagementPageComponent.ExportCustomers | src/app/admin-app/pages/UserManagementPage/UserManagementPage.ts:116-138 | the exported text is the CSV of the customers to export, and without line breaks in the cells its lines are the header and one row per exported customer |
| UserManagementPage.UserManagementPageComponent.constructor | src/app/admin-app/pages/UserManagementPage/UserManagementPage.ts:16-19 | the list, the search and the selection start empty |
| CartView.IsAllSelected | src/app/customer-app/components/Cart/Cart.ts:30-34 | ticked exactly when the cart is non-empty and checkout would take every line; then the checkout totals are the cart totals |
| CartView.IdTexts | src/app/customer-app/components/Cart/Cart.ts:41 | the id texts of the cart lines, in order |
| CartView.AfterToggleSelectAll | src/app/customer-app/components/Cart/Cart.ts:36-43 | when all are selected the wishlist empties; otherwise it becomes exactly the cart's ids, dropping others |
| CartView.ToggleSelectAllFlips | src/app/customer-app/components/Cart/Cart.ts:30-43 | on a non-empty cart, select-all flips `isAllSelected` |
| CartView.CartComponent.ToggleSelectAll | src/app/customer-app/components/Cart/Cart.ts:36-43 | the wishlist becomes `AfterToggleSelectAll` of the cart and the old wishlist |
| CartView.CartComponent.NavigateToPayment | src/app/customer-app/components/Cart/Cart.ts:45-50 | navigation to `/payment` happens only when `wishlistCount` is positive |
| CartView.NoSelectionNoCheckout | src/app/customer-app/components/Cart/Cart.ts:45-50 | with nothing selected the count is 0, so checkout is not reached |
| CartView.CartComponent.constructor | src/app/customer-app/components/Cart/Cart.ts:20-28 | the component is bound to the shared cart and wishlist |
| CartItemView.AfterDecrement | src/app/customer-app/components/CartItem/CartItem.ts:32-39 | above 1 the quantity drops by one; at 1 or less the line is removed |
| CartItemView.DecrementEffect | src/app/customer-app/components/CartItem/CartItem.ts:32-39 | decrementing keeps the cart valid: the line drops by one, or disappears, and never reaches 0 |
| CartItemView.IncrementEffect | src/app/customer-app/components/CartItem/CartItem.ts:28-30 | incrementing sets that line to q + 1 and raises the piece count by 1 |
| CartItemView.Increment | src/app/customer-app/components/CartItem/CartItem.ts:28-30 | the cart's quantity update to q + 1 |
| CartItemView.Decrement | src/app/customer-app/components/CartItem/CartItem.ts:32-39 | the cart becomes `AfterDecrement` of the old cart |
| CartItemView.CartItemComponent.IsInWishlist | src/app/customer-app/components/CartItem/CartItem.ts:20-22 | reports membership of the line's id text |
| CartItemView.CartItemComponent.ToggleWishlist | src/app/customer-app/components/CartItem/CartItem.ts:24-26 | flips membership of the line's id text, so `isInWishlist` flips |
| CartItemView.CartItemComponent.IncrementQuantity | src/app/customer-app/components/CartItem/CartItem.ts:28-30 | sets the line's quantity to q + 1 |
| CartItemView.CartItemComponent.DecrementQuantity | src/app/customer-app/components/CartItem/CartItem.ts:32-39 | decrements above 1, and removes the line otherwise |
| CartItemView.CartItemComponent.constructor | src/app/customer-app/components/CartItem/CartItem.ts:16-18 | the component is bound to its cart line and to the shared cart and wishlist |
| ProductDetailPage.RouteNumber | src/app/customer-app/pages/ProductDetailPage/ProductDetailPage.ts:100 | `Number` of a blank route id is 0 |
| ProductDetailPage.RouteNumberOfId | src/app/customer-app/pages/ProductDetailPage/ProductDetailPage.ts:100 | `Number` of a decimal id text is that id |
| ProductDetailPage.ProductFor | src/app/customer-app/pages/ProductDetailPage/ProductDetailPage.ts:100 | the product is the first one whose id equals `Number(id)`, or `null` when none does |
| ProductDetailPage.DefaultColor | src/app/customer-app/pages/ProductDetailPage/ProductDetailPage.ts:102-106 | there is a colour exactly when the product has colours; it is one whose code is the default colour when such a colour exists, and the first colour otherwise |
| ProductDetailPage.CartEntry | src/app/customer-app/pages/ProductDetailPage/ProductDetailPage.ts:116-124 | the cart entry carries the product's id, name, code and price, with the current image |
| ProductDetailPage.AddedMessage | src/app/customer-app/pages/ProductDetailPage/ProductDetailPage.ts:117 | the alert reads `Added `, the product name, ` in `, the colour name and ` to cart`, in that order and with nothing else |
| ProductDetailPage.FirstAddIsBought | src/app/customer-app/pages/ProductDetailPage/ProductDetailPage.ts:115-128 | adding a new, unselected product selects it, raising the selected count by 1 and the selected price by its price |
| ProductDetailPage.ProductDetailPageComponent.OnRouteParams | src/app/customer-app/pages/ProductDetailPage/ProductDetailPage.ts:80-88 | the route id is stored and, once the catalogue arrives, the product and colour are chosen; the error for a product without colours is reported |
| ProductDetailPage.ProductDetailPageComponent.LoadProduct | src/app/customer-app/pages/ProductDetailPage/ProductDetailPage.ts:97-108 | the product is `ProductFor` the id; when found, the colour is its default colour and the image is that colour's, and a found product without colours leaves no colour and reports the `TypeError` the source raises |
| ProductDetailPage.ProductDetailPageComponent.SelectColor | src/app/customer-app/pages/ProductDetailPage/ProductDetailPage.ts:110-113 | sets both the selected colour and the current image from the argument; the id and the products are kept |
| ProductDetailPage.ProductDetailPageComponent.AddToCart | src/app/customer-app/pages/ProductDetailPage/ProductDetailPage.ts:115-128 | without a product or colour nothing changes; otherwise the entry is added to the cart and its id toggled in the wishlist, so an already selected product becomes unselected |
| ProductDetailPage.ProductDetailPageComponent.BuyNow | src/app/customer-app/pages/ProductDetailPage/ProductDetailPage.ts:130-143 | the same cart and wishlist effect as adding to the cart, followed by navigation to `/payment` |
| ProductDetailPage.ProductDetailPageComponent.constructor | src/app/customer-app/pages/ProductDetailPage/ProductDetailPage.ts:66-70 | no route id, catalogue, product, colour or image yet |
| RelatedProducts.Candidates | src/app/customer-app/components/RelatedProducts/RelatedProducts.ts:62-92 | the listed ids other than the current product; else the current product's own related list (empty when it is not found); else the category/collection filter without the current product, falling back to all other products |
| RelatedProducts.CurrentExcluded | src/app/customer-app/components/RelatedProducts/RelatedProducts.ts:65-69 | with listed ids, every candidate is listed and differs from the current product |
| RelatedProducts.CandidatesFromCatalogue | src/app/customer-app/components/RelatedProducts/RelatedProducts.ts:62-92 | candidates are taken from the catalogue in catalogue order |
| RelatedProducts.TakeLength | src/app/customer-app/components/RelatedProducts/RelatedProducts.ts:94-97 | `slice(0, maxItems)` keeps at most `maxItems` items for a non-negative limit, and counts a negative limit from the end |
| RelatedProducts.ChunksFlatten | src/app/customer-app/components/RelatedProducts/RelatedProducts.ts:105-109 | the slides concatenate to the related products |
| RelatedProducts.ChunksSizes | src/app/customer-app/components/RelatedProducts/RelatedProducts.ts:105-109 | each slide has 1 to `itemsPerSlide` items, and only the last may be short |
| RelatedProducts.ChunksCount | src/app/customer-app/components/RelatedProducts/RelatedProducts.ts:105-110 | there are no slides exactly when there are no products, and the slide count is the rounded-up quotient |
| RelatedProducts.NextSlideIndex | src/app/customer-app/components/RelatedProducts/RelatedProducts.ts:117-121 | the next arrow advances unless on the last slide |
| RelatedProducts.PreviousSlideIndex | src/app/customer-app/components/RelatedProducts/RelatedProducts.ts:123-127 | the previous arrow steps back unless on the first slide |
| RelatedProducts.ArrowsStayInRange | src/app/customer-app/components/RelatedProducts/RelatedProducts.ts:117-127 | from a valid index, both arrows keep the index within [0, max(totalSlides − 1, 0)] |
| RelatedProducts.RelatedProductsComponent.LoadProducts | src/app/customer-app/components/RelatedProducts/RelatedProducts.ts:54-60 | the catalogue is stored, the inputs are kept, and the related products and slides are derived from it |
| RelatedProducts.RelatedProductsComponent.NgOnChanges | src/app/customer-app/components/RelatedProducts/RelatedProducts.ts:48-52 | the inputs are kept; with a catalogue loaded the selection is recomputed, and without one nothing changes |
| RelatedProducts.RelatedProductsComponent.GetRelatedProducts | src/app/customer-app/components/RelatedProducts/RelatedProducts.ts:62-103 | the shown products are the candidates when there are at most `maxItems`; otherwise they are `maxItems` of them, each taken at most as often as it occurs; the slides and one dot per slide (numbered from 0) are rebuilt and the index reset |
| RelatedProducts.ShuffledPrefix | src/app/customer-app/components/RelatedProducts/RelatedProducts.ts:96 | a prefix of any reordering has the requested length and holds each product at most as often as the list did |
| RelatedProducts.RelatedProductsComponent.UpdateRelatedProducts | src/app/customer-app/components/RelatedProducts/RelatedProducts.ts:134-137 | only the listed ids among the inputs change, and the selection is recomputed from them |
| RelatedProducts.RelatedProductsComponent.GetProductsByCategory | src/app/customer-app/components/RelatedProducts/RelatedProducts.ts:140-144 | only the category and the excluded id among the inputs change, and the selection is recomputed |
| RelatedProducts.RelatedProductsComponent.GetRandomProducts | src/app/customer-app/components/RelatedProducts/RelatedProducts.ts:147-153 | the inputs are kept; the result holds `slice(0, count)` many of the products other than the excluded one, each at most as often as it occurs, and the slides, count and dots are rebuilt |
| RelatedProducts.RelatedProductsComponent.CreateSlides | src/app/customer-app/components/RelatedProducts/RelatedProducts.ts:105-114 | the slides are the chunks of the related products; the slide count and dots `[0 .. totalSlides)` follow, and the index resets to 0 |
| RelatedProducts.RelatedProductsComponent.NextSlide | src/app/customer-app/components/RelatedProducts/RelatedProducts.ts:117-121 | only the index changes, to `NextSlideIndex` |
| RelatedProducts.RelatedProductsComponent.PreviousSlide | src/app/customer-app/components/RelatedProducts/RelatedProducts.ts:123-127 | only the index changes, to `PreviousSlideIndex` |
| RelatedProducts.RelatedProductsComponent.GoToSlide | src/app/customer-app/components/RelatedProducts/RelatedProducts.ts:129-131 | only the index changes, to the given value |
| RelatedProducts.RelatedProductsComponent.constructor | src/app/customer-app/components/RelatedProducts/RelatedProducts.ts:24-40 | the inputs are stored, and there are no products, no slides and the index is 0 |
| CollectionPage.UniqueInOrder | src/app/customer-app/pages/CollectionPage/CollectionPage.ts:72 | `[...new Set(xs)]` holds each value of the list exactly once |
| CollectionPage.UniqueInOrderIsFirstAppearance | src/app/customer-app/pages/CollectionPage/CollectionPage.ts:72 | the distinct values come in the order of their first appearance |
| CollectionPage.Hyphenate | src/app/customer-app/pages/CollectionPage/CollectionPage.ts:81 | the result has no whitespace, only characters of the input or `-`, and text without whitespace is unchanged |
| CollectionPage.HyphenateWords | src/app/customer-app/pages/CollectionPage/CollectionPage.ts:81 | two words separated by a whitespace run are joined by a single `-` |
| CollectionPage.HyphenateGap | src/app/customer-app/pages/CollectionPage/CollectionPage.ts:81 | a whitespace run in front of a word becomes a single `-` |
| CollectionPage.Slug | src/app/customer-app/pages/CollectionPage/CollectionPage.ts:81 | a default slug has no whitespace and no upper-case letter |
| CollectionPage.CollectionFor | src/app/customer-app/pages/CollectionPage/CollectionPage.ts:43-58 | known names use the metadata table; other names get the default entry with the name, description, image and slug |
| CollectionPage.GroupFor | src/app/customer-app/pages/CollectionPage/CollectionPage.ts:74-89 | a group holds the first six products of its collection, with featured the first four and additional the next two |
| CollectionPage.Organize | src/app/customer-app/pages/CollectionPage/CollectionPage.ts:70-90 | one group per distinct collection, in first-appearance order |
| CollectionPage.OrganizeDistinct | src/app/customer-app/pages/CollectionPage/CollectionPage.ts:72-74 | no two groups are for the same collection |
| CollectionPage.OrganizeCovers | src/app/customer-app/pages/CollectionPage/CollectionPage.ts:72-74 | every product's collection has a group |
| CollectionPage.GroupShape | src/app/customer-app/pages/CollectionPage/CollectionPage.ts:75-88 | a group has at most six products, all of its collection and in catalogue order, and featured followed by additional is the group |
| CollectionPage.GroupNonEmpty | src/app/customer-app/pages/CollectionPage/CollectionPage.ts:75-88 | a group has featured products exactly when its collection has a product, and additional ones exactly when it has more than four |
| CollectionPage.OrganizeEmpty | src/app/customer-app/pages/CollectionPage/CollectionPage.ts:70-90 | there are no groups exactly when the catalogue is empty |
| CollectionPage.LookupInOrganized | src/app/customer-app/pages/CollectionPage/CollectionPage.ts:101-106 | among the organised groups a collection is found exactly when some product has it, and the group found is that collection's |
| CollectionPage.HeroShowsFirstGroup | src/app/customer-app/pages/CollectionPage/CollectionPage.ts:93-95 | for a non-empty catalogue the first group is the first product's collection |
| CollectionPage.CollectionPageComponent.OnCatalogue | src/app/customer-app/pages/CollectionPage/CollectionPage.ts:62-68 | the catalogue is stored and organised into groups |
| CollectionPage.CollectionPageComponent.OrganizeCollections | src/app/customer-app/pages/CollectionPage/CollectionPage.ts:70-98 | the groups are `Organize` of the catalogue, and the current collection becomes the first group's when any exists and is unchanged otherwise |
| CollectionPage.CollectionPageComponent.CurrentGroup | src/app/customer-app/pages/CollectionPage/CollectionPage.ts:102-104 | the group found is one named like the current collection, and none is found exactly when no group has that name |
| CollectionPage.CollectionPageComponent.GetFeaturedProducts | src/app/customer-app/pages/CollectionPage/CollectionPage.ts:101-106 | the current group's featured products, or empty without such a group |
| CollectionPage.CollectionPageComponent.GetAdditionalProducts | src/app/customer-app/pages/CollectionPage/CollectionPage.ts:108-113 | the current group's additional products, or empty without such a group |
| CollectionPage.CollectionPageComponent.HasProducts | src/app/customer-app/pages/CollectionPage/CollectionPage.ts:116-118 | once the groups are those of the catalogue, true exactly when the catalogue is not empty |
| CollectionPage.CollectionPageComponent.HasFeaturedProducts | src/app/customer-app/pages/CollectionPage/CollectionPage.ts:120-122 | implies `HasProducts`; once organised, true exactly when some product belongs to the current collection |
| CollectionPage.CollectionPageComponent.HasAdditionalProducts | src/app/customer-app/pages/CollectionPage/CollectionPage.ts:124-126 | implies `HasProducts`; once organised, true exactly when more than four products belong to the current collection |
| CollectionPage.CollectionPageComponent.constructor | src/app/customer-app/pages/CollectionPage/CollectionPage.ts:23-40 | the page starts with no products and no groups, showing the initial collection |
| EditProductModal.LoadedForm | src/app/admin-app/components/EditProductModal/EditProductModal.ts:76-94 | the form takes the product's fields; name 2 is the full name's words after the first, and the colour is the first colour's name or `''` |
| EditProductModal.Updated | src/app/admin-app/components/EditProductModal/EditProductModal.ts:127-150 | the emitted record keeps the id and untouched fields and takes the form's values; original price is price + 50000 and the full name is trimmed; empty material fields fall back; there is one colour, based on the first, with the form stock |
| EditProductModal.SaveUntouchedIsIdentity | src/app/admin-app/components/EditProductModal/EditProductModal.ts:76-150 | opening a well-formed product and saving unchanged gives the product back |
| EditProductModal.UpdatedFromOwnForm | src/app/admin-app/components/EditProductModal/EditProductModal.ts:127-150 | a form holding the product's own values, whose two names rebuild its full name, is saved as that same product |
| EditProductModal.UntouchedFullName | src/app/admin-app/components/EditProductModal/EditProductModal.ts:79-82 | splitting the full name after the first word and joining the two names again with a space, then trimming, gives back the full name |
| EditProductModal.WithoutImage | src/app/admin-app/components/EditProductModal/EditProductModal.ts:113-115 | `splice(index, 1)` removes one image at the index, counting a negative index from the end, and removes none past the end |
| EditProductModal.EditProductModalComponent.NgOnChanges | src/app/admin-app/components/EditProductModal/EditProductModal.ts:70-74 | a changed product to edit refills the form |
| EditProductModal.EditProductModalComponent.LoadProductData | src/app/admin-app/components/EditProductModal/EditProductModal.ts:76-94 | the form becomes `LoadedForm` of the product under edit, if any |
| EditProductModal.EditProductModalComponent.CloseModal | src/app/admin-app/components/EditProductModal/EditProductModal.ts:96-100 | the dialog hides, the form resets, and `onClose` is emitted |
| EditProductModal.EditProductModalComponent.ResetForm | src/app/admin-app/components/EditProductModal/EditProductModal.ts:156-171 | every form field becomes empty, `null` or `[]` |
| EditProductModal.EditProductModalComponent.OnImageSelect | src/app/admin-app/components/EditProductModal/EditProductModal.ts:106-111 | the chosen files replace the images when a file list is present |
| EditProductModal.EditProductModalComponent.RemoveImage | src/app/admin-app/components/EditProductModal/EditProductModal.ts:113-115 | the images become `WithoutImage` of the old images |
| EditProductModal.EditProductModalComponent.SaveProduct | src/app/admin-app/components/EditProductModal/EditProductModal.ts:117-154 | without a product it does nothing; an empty name, or a missing or zero price or stock, raises the alert and emits nothing; otherwise `Updated` is emitted and the dialog closes |
| EditProductModal.EditProductModalComponent.constructor | src/app/admin-app/components/EditProductModal/EditProductModal.ts:29-48 | the dialog starts hidden, with no product to edit and an empty form |
| EditProductModal.FirstColorName | src/app/admin-app/components/EditProductModal/EditProductModal.ts:83 | the first colour's name, or `''` for a product without colours |
| EditProductModal.OrElse | src/app/admin-app/components/EditProductModal/EditProductModal.ts:140-141 | the JavaScript fallback on text: the first value unless it is empty, then the second |
| AddProductModal.ImagesDecideValidity | src/app/admin-app/components/AddProductModal/AddProductModal.ts:52-78 | on a complete form, a new file list keeps it submittable exactly when it is not empty |
| AddProductModal.IsFormValid | src/app/admin-app/components/AddProductModal/AddProductModal.ts:66-78 | a form that passes is not the reset form and has an image, a price and a stock; `ImagesDecideValidity` and `EmptyFormInvalid` give the rest of its meaning |
| AddProductModal.EmptyFormInvalid | src/app/admin-app/components/AddProductModal/AddProductModal.ts:80-91 | a reset form, even with every text filled but no image, cannot be submitted |
| AddProductModal.AddProductModalComponent.CloseModal | src/app/admin-app/components/AddProductModal/AddProductModal.ts:42-46 | the dialog hides, the form resets, and `onClose` is emitted |
| AddProductModal.AddProductModalComponent.ResetForm | src/app/admin-app/components/AddProductModal/AddProductModal.ts:80-95 | every form field becomes empty, `null` or `[]` |
| AddProductModal.AddProductModalComponent.OnImagesSelected | src/app/admin-app/components/AddProductModal/AddProductModal.ts:52-57 | the chosen files replace the images when a file list is present |
| AddProductModal.AddProductModalComponent.OnSubmit | src/app/admin-app/components/AddProductModal/AddProductModal.ts:59-64 | a valid form is emitted as a copy and the dialog closes; an invalid one changes nothing and emits nothing |
| AddProductModal.AddProductModalComponent.constructor | src/app/admin-app/components/AddProductModal/AddProductModal.ts:25-40 | the dialog starts hidden with an empty form |
| HomePage.JsRem | src/app/customer-app/pages/HomePage/HomePage.ts:56 | JavaScript's `%` agrees with the Euclidean remainder on non-negative operands and takes the dividend's sign |
| HomePage.NextTop | src/app/customer-app/pages/HomePage/HomePage.ts:55-57 | from an index of −1 or more, the next top slide is in {0, 1} |
| HomePage.NextBottom | src/app/customer-app/pages/HomePage/HomePage.ts:64-66 | the next bottom slide stays in [0, 5) from −1 or more, advances by one, and wraps 4 to 0 |
| HomePage.PreviousBottom | src/app/customer-app/pages/HomePage/HomePage.ts:68-70 | 0 goes to 4, and anything else is decremented |
| HomePage.TopAlternates | src/app/customer-app/pages/HomePage/HomePage.ts:55-57 | on {0, 1} the top carousel alternates |
| HomePage.BottomInverse | src/app/customer-app/pages/HomePage/HomePage.ts:64-70 | on [0, 5), next and previous undo each other |
| HomePage.NegativeStaysNegative | src/app/customer-app/pages/HomePage/HomePage.ts:64-74 | a negative index set directly is not pulled back into range: next from −7 gives −1 and previous from −1 gives −2 |
| HomePage.HomePageComponent.NextTopSlide | src/app/customer-app/pages/HomePage/HomePage.ts:55-57 | the top index becomes `NextTop` of the old one |
| HomePage.HomePageComponent.GoToTopSlide | src/app/customer-app/pages/HomePage/HomePage.ts:59-61 | the top index is set exactly, with no range check |
| HomePage.HomePageComponent.NextBottomSlide | src/app/customer-app/pages/HomePage/HomePage.ts:64-66 | the bottom index becomes `NextBottom` of the old one |
| HomePage.HomePageComponent.PreviousBottomSlide | src/app/customer-app/pages/HomePage/HomePage.ts:68-70 | the bottom index becomes `PreviousBottom` of the old one |
| HomePage.HomePageComponent.GoToBottomSlide | src/app/customer-app/pages/HomePage/HomePage.ts:72-74 | the bottom index is set exactly, with no range check |
| HomePage.HomePageComponent.constructor | src/app/customer-app/pages/HomePage/HomePage.ts:23-24 | both carousels start on slide 0 |
| HomePage.JsRemOdd | src/app/customer-app/pages/HomePage/HomePage.ts:65 | JavaScript's `%` is odd in the dividend: negating it negates the remainder |
| AdminLayout.PageTitle | src/app/admin-app/components/AdminLayout/AdminLayout.ts:40-51 | `/admin/products` gives Product Management; otherwise `/admin/orders` gives Order Management; otherwise `/admin/users` gives Customer Management; otherwise Admin Panel |
| AdminLayout.ProductsTakesPrecedence | src/app/admin-app/components/AdminLayout/AdminLayout.ts:42-45 | a url holding the orders path before the products path is still titled Product Management |
| AdminLayout.AdminLayoutComponent.constructor | src/app/admin-app/components/AdminLayout/AdminLayout.ts:20-23 | the title is set from the starting url |
| AdminLayout.AdminLayoutComponent.UpdatePageTitle | src/app/admin-app/components/AdminLayout/AdminLayout.ts:40-51 | the title becomes `PageTitle` of the new url |
| LoginPage.EnteredCredentials | src/app/customer-app/pages/LoginPage/LoginPage.ts:36-47 | both trimmed values are used when both inputs exist and are non-blank; otherwise there are none |
| LoginPage.FailureMessage | src/app/customer-app/pages/LoginPage/LoginPage.ts:60 | the result's message, or `Login failed. Please try again.` when it is absent or empty |
| LoginPage.LoginPageComponent.NgOnInit | src/app/customer-app/pages/LoginPage/LoginPage.ts:23-29 | a user who is already logged in is sent to `/`; the session is left as `getCurrentUser` leaves it |
| LoginPage.LoginPageComponent.Login | src/app/customer-app/pages/LoginPage/LoginPage.ts:35-71 | missing values show the prompt without calling the service; otherwise the service decides and loading ends; a success stores the session under `currentUser` and navigates by role, and a failure shows its message and leaves the session and storage |
| LoginPage.LoginPageComponent.CloseModal | src/app/customer-app/pages/LoginPage/LoginPage.ts:73-75 | the message dialog closes |
| LoginPage.LoginPageComponent.constructor | src/app/customer-app/pages/LoginPage/LoginPage.ts:19-21 | the message dialog is closed, its text empty, and nothing is loading |
| SignUpPage.CreateAccount | src/app/customer-app/pages/SignUpPage/SignUpPage.ts:16-34 | any empty field gives the fill-in alert; otherwise unaccepted terms give the terms alert; only a complete form with the terms accepted goes to `/login` |
| SignUpPage.FieldCheckFirst | src/app/customer-app/pages/SignUpPage/SignUpPage.ts:22-30 | the field check comes before the terms check |
| SignUpPage.BlankFieldsAccepted | src/app/customer-app/pages/SignUpPage/SignUpPage.ts:22 | whitespace-only values are not treated as empty |
| ForgotPasswordPage.LastDigit | src/app/customer-app/pages/ForgotPasswordPage/ForgotPasswordPage.ts:39 | the last digit of the text, or `''` exactly when the text has no digit |
| ForgotPasswordPage.LastDigitIsSliceOfDigits | src/app/customer-app/pages/ForgotPasswordPage/ForgotPasswordPage.ts:39 | it is the regular-expression pipeline: the last character of the text's digits |
| ForgotPasswordPage.PastedDigits | src/app/customer-app/pages/ForgotPasswordPage/ForgotPasswordPage.ts:51-52 | the pasted text's first digits, at most six |
| ForgotPasswordPage.Singles | src/app/customer-app/pages/ForgotPasswordPage/ForgotPasswordPage.ts:55-60 | each pasted digit goes into an input box of its own |
| ForgotPasswordPage.ConcatSingles | src/app/customer-app/pages/ForgotPasswordPage/ForgotPasswordPage.ts:65 | joining the single-character boxes gives back the digits |
| ForgotPasswordPage.ConfirmCode | src/app/customer-app/pages/ForgotPasswordPage/ForgotPasswordPage.ts:63-78 | a length other than 6 gives the digits alert; another 6-character code gives `Wrong code`; only `123456` goes to `/reset-password` |
| ForgotPasswordPage.PastedDemoCodeConfirms | src/app/customer-app/pages/ForgotPasswordPage/ForgotPasswordPage.ts:48-78 | pasting text whose first six digits are the demo code passes the check |
| ForgotPasswordPage.ForgotPasswordPageComponent.SendRequestCode | src/app/customer-app/pages/ForgotPasswordPage/ForgotPasswordPage.ts:19-28 | an empty email is refused with `isCodeSent` unchanged; otherwise the code counts as sent |
| ForgotPasswordPage.ForgotPasswordPageComponent.OnCodeInput | src/app/customer-app/pages/ForgotPasswordPage/ForgotPasswordPage.ts:30-46 | the typed position of `verificationCode` holds the last digit typed, or `''`; the typed box itself ends empty; other positions and boxes are unchanged |
| ForgotPasswordPage.ForgotPasswordPageComponent.OnPaste | src/app/customer-app/pages/ForgotPasswordPage/ForgotPasswordPage.ts:48-61 | the first k pasted digits fill positions 0..k−1 of the boxes and the code, and later positions are unchanged |
| ForgotPasswordPage.ForgotPasswordPageComponent.constructor | src/app/customer-app/pages/ForgotPasswordPage/ForgotPasswordPage.ts:16-17 | no code has been sent and all six code boxes are empty |
| ResetPasswordPage.HandleResetPassword | src/app/customer-app/pages/ResetPasswordPage/ResetPasswordPage.ts:19-34 | an empty field gives the fill-in alert; different values give the mismatch alert; only equal non-empty values go to `/login`, with the success alert |
| ResetPasswordPage.EmptyBeforeMismatch | src/app/customer-app/pages/ResetPasswordPage/ResetPasswordPage.ts:20-28 | the emptiness check comes before the comparison |

## Left out

- Timing: the 300 ms reply delay of the add methods and the home-page auto-slide intervals are not modelled. So are the retry delays of the order-history auth check; its attempts are a counter.
- Clock: `Date.now`, `new Date` and `toISOString` are not modelled. Order ids, order numbers and creation times are integer or text inputs, and dates are compared through a given time function.
- Randomness: the `Math.random` shuffle is any permutation. Which items a shuffle keeps is therefore not fixed.
- `RelatedProducts.RelatedProductsComponent.GetRelatedProducts`: like the other methods that rebuild the slides, it requires `itemsPerSlide > 0`. With `itemsPerSlide` at most 0 and a non-empty list, the slide loop of the source never ends.
- `OrderDetailModal.OrderDetailModalComponent.UpdateStatus`: it requires an order to be present. The source reads `order.status` unguarded and fails without one.
- `ForgotPasswordPage.ForgotPasswordPageComponent.OnCodeInput`: it requires an index inside the six code boxes and inside the box list. An index outside them has no box to write to.
- Number semantics: numbers are integers, so floating point, `NaN` and exponent forms are left out. `avgOrderValue` is an exact real division. `PricePipe.Transform` covers integer values only.
- `ProductDetailPage.RouteNumber`: it reads only blank and plain decimal route ids. It does not read the hexadecimal, exponent, signed or fractional forms `Number` accepts; those give no product.
- `ProductDetailPage.ProductDetailPageComponent.LoadProduct`: for a found product without colours, the source's `TypeError` is returned as the `thrown` flag. Its propagation out of the subscription callback is not modelled; the state left is the state at the throw.
- `ProductDetailPage.CartEntry`: the cart line keeps only id, name, code, price and image. The source spreads the whole product into it, but the cart reads only these fields.
- `EditProductModal.Updated`: for a product without colours, the single colour is built from empty defaults, while the source builds an object with only a name and a stock.
- Text: lowercasing is ASCII only, with no Unicode case mapping. Whitespace is the ASCII set.
- Browser and framework: the DOM, `alert`/`confirm` dialogs, the Blob download of the CSV, `ViewportScroller`, the route tables and observer subscriptions are not modelled. Their effects are returned as values or taken as inputs, such as the confirm answer and the input box values.
- Navigation-only handlers with no logic are not modelled: `goToForgotPassword`, `goToSignUp`, `goToHome`, the sign-up and reset pages' `goToLogin`, and `resendCode`. So are the order-management modal's `viewOrder`/`closeOrderModal` and the file-picker `selectImages`.
- Metadata lookup: `collectionsMetadata[name]` is a plain table lookup here. Inherited object properties such as `constructor` are not modelled as names.
- The component files outside this model are: the layouts, header, sidebar, personal-info, product item, products, landing, not-found and forbidden pages.
