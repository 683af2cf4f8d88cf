# Music store: cart, checkout, accounts and the admin console

A model of the React/Django music store. The Django backend keeps a per-user
cart, turns a submitted cart into a paid order with order lines and a shipping
record, validates registrations and logins, and gives staff operators a login
and an order-status update. The React frontend keeps its session tokens in
`localStorage`, guards its pages on those tokens, and runs small page-level
state machines: product counters and search, the cart total and removal, the
payment form, registration, and the admin pages for users, categories,
products and orders.

Each source file becomes one module:

- **Backend.** `Models` holds the database records and their constraints.
  `ProductsViews.Store` is one class over the tables (carts, cart items keyed
  by (cart, product), orders, order lines, shipping records). Its methods are
  the cart and checkout views, and loops work through the submitted items.
  `UsersSerializers` holds the registration validators, the login check and an
  `Accounts` class for `create`. `AdminsViews` holds the admin permission, the
  admin login, the partial status update and the newest-first ordering.
- **Frontend.** Every page keeps its React state as fields of a class. A
  handler becomes a method that changes those fields. The toasts it shows, the
  navigations it makes and the requests it sends are out-parameters.
  - A server reply is a parameter, `Reply.Ok(data)` or `Reply.Err(failure)`.
  - `window.confirm` is a boolean parameter.
  - `localStorage` is the class `Storage.LocalStorage` over a
    `map<string, string>`.
- **Shared helpers.** `Wrappers` (Option, Result), `Seqs` (filter and
  sub-sequence lemmas), `Text` (ASCII lower-casing, substring search, the
  camelCase label) and `Http` (replies, toasts, flattening of per-field error
  lists).

Prices and amounts are integers (minor units). JavaScript details are written
out:

- Truthiness: `x || d` treats `""`, `0` and a missing value alike.
- An undefined field is an `Option`.
- A `NaN` total is `None`.
- `String(undefined)` is stored as `"undefined"`.

## Model

| member | source | states |
|---|---|---|
| Models.NewCartItem | Backend/apps/products/models.py:32-35 | a new cart item has quantity 1 for the given cart and product |
| Models.NewOrder | Backend/apps/products/models.py:44-49 | a new order is unpaid and carries the given user, total and payment method |
| Models.NewShippingAddress | Backend/apps/products/models.py:65-75 | a new shipping record starts with payment status "Success" and order status "Pending" and keeps every given field |
| Models.UniqueCartProduct | Backend/apps/products/models.py:37-38 | two cart-item rows with the same (cart, product) are the same row |
| Models.ItemRowsExact | Backend/apps/products/models.py:32-38 | a row is stored exactly when its (cart, product) key maps to its quantity |
| Models.DeleteCategory | Backend/apps/products/models.py:13-57 | deleting a category deletes exactly its products and, through the cascades, exactly the cart items of those products; every other category, product and cart item is unchanged |
| Models.DeleteCategoryOrderLines | Backend/apps/products/models.py:55-57 | the order lines that survive are exactly those whose product lies outside the category, in their original order |
| Models.DeleteCart | Backend/apps/products/models.py:33 | deleting a cart deletes exactly its items; other carts' items are unchanged |
| Models.CascadeLeavesNoOrphans | Backend/apps/products/models.py:5-57 | consistent tables stay consistent: no product, cart item or order line refers to a deleted row, and all rows keep their length bounds |
| ProductsViews.CheckoutTotalDefined | Backend/apps/products/views.py:83-87 | the total is defined exactly when every submitted item names a known product and a quantity |
| ProductsViews.TotalIgnoresClientPrices | Backend/apps/products/views.py:83-87 | two submissions that differ only in client-sent prices have the same total |
| ProductsViews.CheckoutTotalNoneExtends | Backend/apps/products/views.py:84-86 | once a prefix of the items fails to resolve, the whole checkout fails |
| ProductsViews.Line | Backend/apps/products/views.py:100-105 | an order line carries the order, the product, the submitted quantity and the product's current price |
| ProductsViews.OrderLines | Backend/apps/products/views.py:97-105 | one order line per submitted item, in order |
| ProductsViews.LinesAddUpToTotal | Backend/apps/products/views.py:83-105 | the order lines' price × quantity add up to the order total |
| ProductsViews.CheckoutShipping | Backend/apps/products/views.py:107-116 | the shipping record belongs to the new order, has the default statuses, stores each submitted detail (fullName … phone) in its column, and "" for each one not sent |
| ProductsViews.ShippingValue | Backend/apps/products/views.py:109-115 | `shipping_data.get(key, "")` |
| ProductsViews.CheckoutTotal | Backend/apps/products/views.py:83-87 | the total loop as a left fold over the items; its meaning is stated by CheckoutTotalDefined, TotalIgnoresClientPrices and LinesAddUpToTotal |
| ProductsViews.Store.constructor | Backend/apps/products/models.py:24-75 | an empty store over a given product table |
| ProductsViews.Store.AddItem | Backend/apps/products/views.py:48-59 | an unknown product or a negative quantity is rejected and changes nothing; otherwise the user's cart is created if missing, a new product is added with the requested quantity (default 1), an existing item grows by that quantity, and every other item is unchanged |
| ProductsViews.Store.CartDetail | Backend/apps/products/views.py:33-40 | not found exactly when the user has no cart; otherwise the cart's product-to-quantity contents |
| ProductsViews.Store.Total | Backend/apps/products/views.py:83-87 | the loop computes the specified checkout total, or fails on an unknown product or missing quantity |
| ProductsViews.Store.AddLines | Backend/apps/products/views.py:97-105 | the loop appends exactly the order lines of the submitted items |
| ProductsViews.Store.Checkout | Backend/apps/products/views.py:71-126 | an empty list is a 400 that creates nothing; a successful checkout appends one paid order with the computed total, its order lines and its shipping record, and empties the user's cart but keeps its row |
| ProductsViews.Store.PlaceOrder | Backend/apps/products/views.py:89-123 | the writes after a successful total: the next order id, one paid order, its lines, its shipping record, and the user's cart items deleted |
| ProductsViews.Store.ClearCart | Backend/apps/products/views.py:118-123 | exactly the user's cart items are deleted; a user without a cart changes nothing |
| UsersSerializers.ValidateEmail | Backend/apps/users/serializers.py:14-17 | accepted, unchanged, exactly when no account has the email; otherwise the "already exists" message |
| UsersSerializers.ValidatePassword | Backend/apps/users/serializers.py:19-24 | accepted, unchanged, exactly when it has at least 8 characters, an ASCII letter and a digit; the length message takes precedence |
| UsersSerializers.ValidateUsername | Backend/apps/users/serializers.py:26-31 | accepted, unchanged, exactly when it has at least 4 characters and is not taken; the length check comes first |
| UsersSerializers.PasswordExamples | Backend/apps/users/serializers.py:19-24 | "password" is refused as not alphanumeric, while "passw0rd" is accepted |
| UsersSerializers.ShortUsernameIgnoresAccounts | Backend/apps/users/serializers.py:27-28 | `validate_username` refuses a short username the same way whatever accounts exist (at the endpoint the unique validator runs first) |
| UsersSerializers.RegisterErrors | Backend/apps/users/serializers.py:14-31 | no errors exactly when the three `validate_*` methods accept, with at most one message per field; the model field validators that run before them are not included |
| UsersSerializers.Accounts.constructor | Backend/apps/users/serializers.py:33-39 | a store over the given accounts |
| UsersSerializers.Accounts.Register | Backend/apps/users/serializers.py:33-39 | with validation errors nothing is created; otherwise exactly one account with the given name and email is appended |
| UsersSerializers.SecondRegistrationRefused | Backend/apps/users/serializers.py:14-31 | once an account exists, a registration reusing its email is refused with the email-taken message, and one reusing its username (of valid length) with the username-taken message |
| UsersSerializers.ValidateLogin | Backend/apps/users/serializers.py:47-61 | an unknown email is rejected with "Invalid email or password"; success returns the data with the authenticated user added |
| UsersSerializers.SingleMatch | Backend/apps/users/serializers.py:52 | an email held by exactly one account selects that account |
| UsersSerializers.SameMessageForUnknownEmailAndWrongPassword | Backend/apps/users/serializers.py:51-58 | a wrong password yields the same rejection as an unknown email |
| UsersSerializers.LoginSucceedsIff | Backend/apps/users/serializers.py:56-61 | for a uniquely registered email, login succeeds exactly when authentication does, and returns that user |
| UsersSerializers.SharedEmailIsServerError | Backend/apps/users/serializers.py:52 | an email held by two accounts makes the lookup fail with a server error |
| AdminsViews.HasPermission | Backend/apps/admins/views.py:15-17 | allowed exactly for a signed-in staff user |
| AdminsViews.TokenExactlyForPermittedAccounts | Backend/apps/admins/views.py:66-72 | the admin login issues a token exactly when the authenticated account passes the admin permission |
| AdminsViews.AdminLogin | Backend/apps/admins/views.py:60-73 | missing fields give field errors; an access token is minted exactly when the credentials authenticate a staff user; every other attempt gets 401 "Invalid credentials or not admin" |
| AdminsViews.NonStaffLooksLikeBadPassword | Backend/apps/admins/views.py:68-73 | a correct non-staff login gets the same reply as a wrong password |
| AdminsViews.ApplyPatch | Backend/apps/admins/views.py:50-53 | a partial update: columns absent from the request keep their values, given columns take the sent values, and the order link never changes |
| AdminsViews.StatusPatchChangesOnlyStatus | Backend/apps/admins/views.py:50-53 | a patch of only `order_status` changes only the order status |
| AdminsViews.PatchIdempotent | Backend/apps/admins/views.py:50-53 | repeating a patch changes nothing more, and an empty patch changes nothing |
| AdminsViews.InvalidColumnsEmptyIff | Backend/apps/admins/serializers.py:55-62 | the patch is valid exactly when every sent shipping column is non-blank and fits its maximum length |
| AdminsViews.ColumnOk | Backend/apps/admins/serializers.py:55-62 | a column left out of the patch passes; a sent one must be non-blank and within the column's `max_length` |
| AdminsViews.InvalidColumns | Backend/apps/admins/serializers.py:55-62 | the refused columns in field order; InvalidColumnsEmptyIff states when there are none |
| AdminsViews.AcceptedPatchKeepsLengths | Backend/apps/admins/views.py:50-52 | an accepted patch keeps a valid shipping record valid |
| AdminsViews.UpdateStatus | Backend/apps/admins/views.py:42-54 | an unknown order is not found; an order without shipping gets 404 and nothing changes; invalid data gets 400 listing the bad columns and saves nothing; otherwise only that order's shipping record is patched |
| ProductsViews.Store.SaveShipping | Backend/apps/admins/views.py:52 | `serializer.save()` replaces that order's shipping record and keeps every other one and the store's invariant |
| AdminsViews.Insert | Backend/apps/admins/views.py:39 | inserting adds exactly one order to the multiset |
| AdminsViews.ByNewest | Backend/apps/admins/views.py:39 | the ordered list is a permutation of the orders |
| AdminsViews.ConsNewestFirst | Backend/apps/admins/views.py:39 | an order at least as new as all the others can be put in front of a newest-first list |
| AdminsViews.TailNewestFirst | Backend/apps/admins/views.py:39 | the rest of a newest-first list is newest-first, and its head is the newest |
| AdminsViews.InsertKeepsOrder | Backend/apps/admins/views.py:39 | inserting into a newest-first list keeps it newest-first |
| AdminsViews.ByNewestIsSortedPermutation | Backend/apps/admins/views.py:39 | the listing is sorted by `created_at` descending and is a permutation of all orders |
| Storage.RedirectIfPresent | Frontend/src/pages/user/Login.jsx:12-17 | navigates to the target exactly when the key holds a truthy value |
| Storage.RedirectIfMissing | Frontend/src/components/user/auth/useAuthGuard.js:7-12 | navigates to the target exactly when the key holds no truthy value |
| Storage.LocalStorage.constructor | Frontend/src/components/user/auth/useAuthGuard.js:7 | a store over the given items |
| Storage.LocalStorage.GetItem | Frontend/src/components/user/auth/useAuthGuard.js:7 | the stored value, or null when the key is absent |
| Storage.LocalStorage.SetItem | Frontend/src/pages/user/Login.jsx:25-26 | sets one key and leaves every other key unchanged |
| Storage.LocalStorage.RemoveItem | Frontend/src/components/user/layout/Header.jsx:13-14 | removes one key and leaves every other key unchanged |
| UserAuthGuard.UseAuthGuard | Frontend/src/components/user/auth/useAuthGuard.js:7-12 | navigates once to /login exactly when no user token is stored, and writes nothing |
| UserAuthGuard.GuardIgnoresAdminToken | Frontend/src/components/user/auth/useAuthGuard.js:8 | an admin token neither satisfies nor changes the user guard |
| UserAuthGuard.EmptyTokenRedirects | Frontend/src/components/user/auth/useAuthGuard.js:9 | an empty-string token counts as missing |
| AdminAuthGuard.UseAuthGuard | Frontend/src/components/admin/auth/useAuthGuard.js:7-12 | navigates once to /admin/login exactly when no admin token is stored |
| AdminAuthGuard.GuardIgnoresUserToken | Frontend/src/components/admin/auth/useAuthGuard.js:8 | a user token neither satisfies nor changes the admin guard |
| AdminAuthGuard.EmptyTokenRedirects | Frontend/src/components/admin/auth/useAuthGuard.js:9 | an empty-string admin token counts as missing |
| UserLogin.Mount | Frontend/src/pages/user/Login.jsx:12-17 | a stored user token sends the visitor to / |
| UserLogin.HandleSubmit | Frontend/src/pages/user/Login.jsx:19-33 | success stores the token and the username and goes to /; failure writes nothing and shows one error; the admin key is never written |
| AdminLogin.Mount | Frontend/src/pages/admin/Login.jsx:11-16 | a stored admin token opens /admin/dashboard |
| AdminLogin.FailureText | Frontend/src/pages/admin/Login.jsx:26 | the server's `detail` when there is one, otherwise "Login failed" |
| AdminLogin.HandleLogin | Frontend/src/pages/admin/Login.jsx:18-28 | success stores `access` under the admin key only and opens the dashboard; failure writes nothing and shows the failure text |
| UserHeader.UsernamePopup | Frontend/src/components/user/layout/Header.jsx:70 | the popup shows exactly when the flag is set and a username is stored |
| UserHeader.DesktopLinks | Frontend/src/components/user/layout/Header.jsx:36-46 | the four fixed links, then Login and Register without a token |
| UserHeader.MobileLinks | Frontend/src/components/user/layout/Header.jsx:124-140 | nothing while closed, otherwise the desktop links |
| UserHeader.LogoutVisible | Frontend/src/components/user/layout/Header.jsx:93 | the logout button shows with a stored user token |
| UserHeader.VisibilityByToken | Frontend/src/components/user/layout/Header.jsx:41-46 | Login and Register appear in both menus exactly when no user token is stored, and logout exactly when one is |
| UserHeader.LogoutHandler | Frontend/src/components/user/layout/Header.jsx:12-16 | removes the user token and the username, keeps the admin token, and goes to /login |
| AdminHeader.Render | Frontend/src/components/admin/layout/Header.jsx:9-22 | nothing without an admin token, otherwise the five fixed links |
| AdminHeader.LinkOrder | Frontend/src/components/admin/layout/Header.jsx:16-22 | the links are Dashboard, Products, Categories, Orders, Users, in that order |
| AdminHeader.HandleLogout | Frontend/src/components/admin/layout/Header.jsx:11-14 | removes only the admin token, hides the header and goes to /admin/login |
| AdminApi.BaseUrl | Frontend/src/api/admin/axios.js:4 | the configured base URL followed by `api/admin/` |
| AdminApi.RequestConfig.constructor | Frontend/src/api/admin/axios.js:3-6 | a request starts with the admin base URL and a JSON content type |
| AdminApi.InterceptRequest | Frontend/src/api/admin/axios.js:9-14 | with an admin token, sets `Authorization` to `Bearer <token>`; otherwise adds nothing; every other field is unchanged |
| AdminApi.BearerValueParts | Frontend/src/api/admin/axios.js:12 | the header value is "Bearer " followed by the token itself |
| Http.ErrorsOf | Frontend/src/pages/user/Register.jsx:47-49 | one error toast per message, in order |
| Http.MessagesAppend | Frontend/src/pages/user/Register.jsx:45-50 | flattening distributes over concatenation of field lists |
| Http.MessagesLength | Frontend/src/pages/user/Register.jsx:45-50 | the flattened list has one entry per message |
| Http.MessagesMembers | Frontend/src/pages/user/Register.jsx:45-50 | a message is flattened exactly when some field lists it |
| Http.Messages | Frontend/src/pages/user/Register.jsx:45-50 | every field's messages, fields in order; MessagesMembers and MessagesLength state it |
| Http.DetailToasts | Frontend/src/pages/user/Register.jsx:44-51 | the loop shows one error per message, fields in order and messages in list order |
| Http.RejectionToasts | Frontend/src/pages/user/Register.jsx:44-54 | per-message errors when details are present, otherwise exactly one generic error |
| Http.LoadErrorToast | Frontend/src/pages/user/Cart.jsx:19-25 | one error toast, the login message exactly on a 401 |
| Seqs.FilterIsSubsequence | Frontend/src/pages/user/Cart.jsx:35 | a filter keeps the original order |
| Text.ToLowerHasNoUpper | Frontend/src/pages/user/ProductList.jsx:41 | lower-casing leaves no ASCII upper-case letter |
| Text.ToLowerIdempotent | Frontend/src/pages/user/ProductList.jsx:41 | lower-casing twice is lower-casing once |
| Text.ContainsIff | Frontend/src/pages/user/ProductList.jsx:41 | `includes` holds exactly when the query occurs at some position |
| Text.ContainsEmpty | Frontend/src/pages/user/ProductList.jsx:41 | every string includes the empty query |
| Text.LabelLength | Frontend/src/pages/user/Payment.jsx:62 | the label is one character longer per upper-case letter |
| Text.LabelRoundTrip | Frontend/src/pages/user/Payment.jsx:62 | removing the inserted spaces from the label gives back the lower-cased key |
| Text.LabelAppend | Frontend/src/pages/user/Payment.jsx:62 | the label of a concatenation is the concatenation of labels |
| Text.LabelOfLowerKey | Frontend/src/pages/user/Payment.jsx:62 | a key with no upper-case letter is its own label |
| Text.LabelOfPostalCode | Frontend/src/pages/user/Payment.jsx:62 | postalCode becomes "postal code" |
| Text.LabelOfFullName | Frontend/src/pages/user/Payment.jsx:62 | fullName becomes "full name" |
| Text.ToLower | Frontend/src/pages/user/ProductList.jsx:41 | ASCII `toLowerCase` |
| Text.Contains | Frontend/src/pages/user/ProductList.jsx:41 | `includes`; ContainsIff states it against an occurrence index |
| Text.Label | Frontend/src/pages/user/Payment.jsx:62 | a space before each capital, then lower-cased; LabelRoundTrip and LabelLength state it |
| ProductControls.Increment | Frontend/src/pages/user/ProductList.jsx:57-62 | the product's counter becomes its old value (missing counts as 1) plus one; other counters are unchanged |
| ProductControls.Decrement | Frontend/src/pages/user/ProductList.jsx:64-69 | the product's counter drops by one but never below 1; other counters are unchanged |
| ProductControls.CountersStayAtLeastOne | Frontend/src/pages/user/ProductList.jsx:57-69 | increment and decrement keep every counter at least 1 |
| ProductControls.DecrementUndoesIncrement | Frontend/src/pages/user/ProductList.jsx:57-69 | decrementing after incrementing restores the counter |
| ProductControls.AddToCartRequest | Frontend/src/pages/user/ProductList.jsx:71-74 | the request names the product and sends its non-zero counter, or 1 when the counter is missing or 0 |
| ProductControls.AddSendsChangedCounter | Frontend/src/pages/user/ProductList.jsx:57-74 | after an increment the request sends the old counter plus one, after a decrement the lowered counter (never below 1) |
| ProductControls.AddToCartOutcome | Frontend/src/pages/user/ProductList.jsx:73-84 | one toast; success or error by the reply; navigates to /login exactly on a 401 |
| ProductList.SearchKeepsExactlyMatches | Frontend/src/pages/user/ProductList.jsx:40-48 | the search keeps exactly the products whose lower-cased name contains the lower-cased query, with their multiplicities and in order, and is empty exactly when none match |
| ProductList.SearchEmptyQuery | Frontend/src/pages/user/ProductList.jsx:51-55 | the empty query keeps the whole list |
| ProductList.Search | Frontend/src/pages/user/ProductList.jsx:40-42 | the catalogue filtered by the lower-cased substring test; SearchKeepsExactlyMatches states it |
| ProductList.InitialQuantities | Frontend/src/pages/user/ProductList.jsx:22-26 | every loaded product gets a counter of 1, and no other key is set |
| ProductList.ProductListPage.constructor | Frontend/src/pages/user/ProductList.jsx:7-13 | the page's initial state |
| ProductList.ProductListPage.Load | Frontend/src/pages/user/ProductList.jsx:17-33 | success shows all products with counters of 1; failure sets the error and shows it; loading ends either way |
| ProductList.ProductListPage.SetFilter | Frontend/src/pages/user/ProductList.jsx:11 | typing sets the query |
| ProductList.ProductListPage.HandleSubmit | Frontend/src/pages/user/ProductList.jsx:38-49 | shows the search result and a notice exactly when it is empty |
| ProductList.ProductListPage.HandleClear | Frontend/src/pages/user/ProductList.jsx:51-55 | the query is empty and the full list is shown again |
| ProductList.ProductListPage.Increment | Frontend/src/pages/user/ProductList.jsx:57-62 | applies the counter increment and keeps all counters at least 1 |
| ProductList.ProductListPage.Decrement | Frontend/src/pages/user/ProductList.jsx:64-69 | applies the clamped decrement and keeps all counters at least 1 |
| ProductList.ProductListPage.AddToCart | Frontend/src/pages/user/ProductList.jsx:71-85 | sends the counter's quantity and reacts to the reply as specified |
| ProductDetail.LoadFailure | Frontend/src/pages/user/ProductDetial.jsx:17-25 | a 404 shows "No such product exist" and goes to /products; anything else only shows a generic error |
| ProductDetail.ProductDetailPage.constructor | Frontend/src/pages/user/ProductDetial.jsx:8-9 | no product and no counters |
| ProductDetail.ProductDetailPage.Load | Frontend/src/pages/user/ProductDetial.jsx:13-26 | success shows the product; failure keeps it and reacts as specified |
| ProductDetail.ProductDetailPage.Increment | Frontend/src/pages/user/ProductDetial.jsx:30-35 | applies the counter increment and keeps all counters at least 1 |
| ProductDetail.ProductDetailPage.Decrement | Frontend/src/pages/user/ProductDetial.jsx:37-42 | applies the clamped decrement and keeps all counters at least 1 |
| ProductDetail.ProductDetailPage.AddToCart | Frontend/src/pages/user/ProductDetial.jsx:44-58 | sends the counter's quantity (default 1); a 401 goes to /login |
| CartPage.DisplayedVersusTotal | Frontend/src/pages/user/Cart.jsx:44-57 | a line shown for a missing quantity counts it as 1, while the total counts it as 0; otherwise they agree |
| CartPage.LineTotal | Frontend/src/pages/user/Cart.jsx:45 | `(price \|\| 0) * (quantity \|\| 0)`, 0 without a product |
| CartPage.DisplayedAmount | Frontend/src/pages/user/Cart.jsx:56-57 | the row's shown amount, none without a product; DisplayedVersusTotal relates it to the line total |
| CartPage.CartTotal | Frontend/src/pages/user/Cart.jsx:44-45 | the reduce over the lines; CartTotalAppend and RemoveLowersTotal state its meaning |
| CartPage.Remove | Frontend/src/pages/user/Cart.jsx:35 | `prev.filter(item => item.id !== id)`; RemoveSplitsTotal, NoLineWith and RemoveLowersTotal state its effect on the total |
| CartPage.CartTotalAppend | Frontend/src/pages/user/Cart.jsx:44-45 | the total is additive over concatenation |
| CartPage.RemoveSplitsTotal | Frontend/src/pages/user/Cart.jsx:35-45 | the total is the remaining lines' total plus the removed lines' total |
| CartPage.NoLineWith | Frontend/src/pages/user/Cart.jsx:35 | removing an id no line has removes nothing |
| CartPage.RemoveLowersTotal | Frontend/src/pages/user/Cart.jsx:35-45 | with unique ids, removing a line lowers the total by exactly that line's amount |
| CartPage.Cart.constructor | Frontend/src/pages/user/Cart.jsx:8-9 | an empty, loading cart |
| CartPage.Cart.Load | Frontend/src/pages/user/Cart.jsx:13-30 | a reply without `items` gives an empty cart; a 401 shows only the login message; loading ends either way |
| CartPage.Cart.RemoveFromCart | Frontend/src/pages/user/Cart.jsx:32-40 | after a successful delete, exactly the lines with other ids remain, in order; a failure changes nothing and shows one error |
| PaymentPage.WithShipping | Frontend/src/pages/user/Payment.jsx:49-50 | editing one shipping field sets it and leaves the others unchanged |
| PaymentPage.WithCard | Frontend/src/pages/user/Payment.jsx:46-47 | editing one card field sets it and leaves the other card fields unchanged |
| PaymentPage.FirstEmptyIff | Frontend/src/pages/user/Payment.jsx:59-65 | no field is named exactly when all are filled; otherwise the first empty one in form order |
| PaymentPage.FirstEmpty | Frontend/src/pages/user/Payment.jsx:59-65 | the first shipping key whose value is empty; FirstEmptyIff states it |
| PaymentPage.FormError | Frontend/src/pages/user/Payment.jsx:59-69 | the shipping message, else the card message, else none; FormErrorNoneIff and ShippingCheckedFirst state it |
| PaymentPage.FormErrorNoneIff | Frontend/src/pages/user/Payment.jsx:59-69 | the form passes exactly when every shipping and card field is filled |
| PaymentPage.ShippingCheckedFirst | Frontend/src/pages/user/Payment.jsx:59-69 | while a shipping field is empty, the card fields do not matter and the card message is never shown |
| PaymentPage.EmptyFormAsksForFullName | Frontend/src/pages/user/Payment.jsx:15-23 | an empty form asks for the full name first |
| PaymentPage.PostalCodeFirstEmpty | Frontend/src/pages/user/Payment.jsx:15-23 | with the four earlier fields filled, postalCode is the first empty field |
| PaymentPage.PostalCodeMessage | Frontend/src/pages/user/Payment.jsx:62 | the postal-code message reads "Please fill in your postal code." |
| PaymentPage.MissingFieldMessage | Frontend/src/pages/user/Payment.jsx:62 | the template string around the key's label; PostalCodeMessage and MissingPostalCode instantiate it |
| PaymentPage.MissingPostalCode | Frontend/src/pages/user/Payment.jsx:59-65 | a form missing only from the postal code on asks for the postal code |
| PaymentPage.CheckForm | Frontend/src/pages/user/Payment.jsx:59-69 | the loop over the shipping fields, then the card check, find the specified form error |
| PaymentPage.PaymentTotalAgrees | Frontend/src/pages/user/Payment.jsx:52-56 | the total is a number exactly when every quantity is present, and then equals the cart page's total |
| PaymentPage.PaymentTotal | Frontend/src/pages/user/Payment.jsx:52-56 | the payable total, none when a quantity is missing (NaN); PaymentTotalAgrees states it |
| PaymentPage.Payment.constructor | Frontend/src/pages/user/Payment.jsx:9-25 | empty cart, empty form, not submitting, not paid |
| PaymentPage.Payment.Load | Frontend/src/pages/user/Payment.jsx:29-44 | a reply without `items` gives an empty cart; a 401 shows the login message |
| PaymentPage.Payment.SetShipping | Frontend/src/pages/user/Payment.jsx:49-50 | one shipping field changes |
| PaymentPage.Payment.SetCard | Frontend/src/pages/user/Payment.jsx:46-47 | one card field changes |
| PaymentPage.Payment.HandlePayment | Frontend/src/pages/user/Payment.jsx:58-88 | an invalid form shows its error and sends nothing; a sent request carries the card, the shipping details and the cart; success empties the cart and sets the success flag, failure keeps both; submitting is false afterwards |
| PaymentPage.Payment.Render | Frontend/src/pages/user/Payment.jsx:90-120 | the confirmation exactly after payment, the empty notice exactly for an empty unpaid cart, otherwise the form |
| RegisterPage.Mount | Frontend/src/pages/user/Register.jsx:15-20 | a stored user token sends the visitor to / |
| RegisterPage.SubmitError | Frontend/src/pages/user/Register.jsx:25-33 | the missing-field message first, then the mismatch message; SubmitErrorNoneIff, EmptyFieldReportedFirst and MismatchReported state it |
| RegisterPage.SubmitErrorNoneIff | Frontend/src/pages/user/Register.jsx:25-33 | submission passes exactly when all four fields are filled and the passwords match |
| RegisterPage.EmptyFieldReportedFirst | Frontend/src/pages/user/Register.jsx:25-28 | any empty field gives "Please fill all fields" |
| RegisterPage.MismatchReported | Frontend/src/pages/user/Register.jsx:30-33 | with all fields filled, the mismatch message appears exactly when the passwords differ |
| RegisterPage.Register.constructor | Frontend/src/pages/user/Register.jsx:7-12 | an empty form, not submitting |
| RegisterPage.Register.HandleSubmit | Frontend/src/pages/user/Register.jsx:22-57 | a failing check shows one error and sends nothing; a sent request carries username, email and password but not the confirmation; a rejection with details shows one error per message, otherwise one generic error |
| RegisterPage.RejectedRegistration | Frontend/src/pages/user/Register.jsx:44-51 | an email error and a password error become two toasts in field order |
| AdminUsers.FilteredUsersExact | Frontend/src/pages/admin/Users.jsx:82-86 | the filter keeps exactly the users whose lower-cased name or email contains the lower-cased search, with multiplicities and in order |
| AdminUsers.EmptySearchShowsAll | Frontend/src/pages/admin/Users.jsx:82-86 | the empty search shows every user |
| AdminUsers.FilteredUsers | Frontend/src/pages/admin/Users.jsx:82-86 | the users whose name or email contains the search, case-insensitively; FilteredUsersExact states it |
| AdminUsers.RemoveUser | Frontend/src/pages/admin/Users.jsx:47 | `users.filter(u => u.id !== id)`; RemoveUserExact states it |
| AdminUsers.RemoveUserExact | Frontend/src/pages/admin/Users.jsx:47 | removal keeps exactly the rows whose id differs, in order |
| AdminUsers.Users.constructor | Frontend/src/pages/admin/Users.jsx:8-15 | the page's initial state |
| AdminUsers.Users.Load | Frontend/src/pages/admin/Users.jsx:17-35 | success shows the users; failure keeps them and shows the login or generic error |
| AdminUsers.Users.HandleDelete | Frontend/src/pages/admin/Users.jsx:37-51 | a staff user is never deleted; without confirmation nothing happens; a successful delete removes exactly that id |
| AdminUsers.Users.HandleAddUser | Frontend/src/pages/admin/Users.jsx:53-80 | an incomplete form sends nothing; success appends the new non-staff row and clears the form; a rejection shows the server's messages or one generic error |
| AdminCategories.Categories.constructor | Frontend/src/pages/admin/Categories.jsx:7-10 | no categories and not editing |
| AdminCategories.Categories.Load | Frontend/src/pages/admin/Categories.jsx:17-29 | success shows the categories; failure keeps them and shows an error |
| AdminCategories.Categories.AddOrUpdate | Frontend/src/pages/admin/Categories.jsx:31-50 | an empty name sends nothing; editing sends an update of the edited category, otherwise a create; success refetches and leaves edit mode |
| AdminCategories.Categories.StartEdit | Frontend/src/pages/admin/Categories.jsx:52-56 | edit mode holds exactly the chosen category and its name |
| AdminCategories.Categories.CancelEdit | Frontend/src/pages/admin/Categories.jsx:58-62 | edit mode is left with an empty name |
| AdminCategories.Categories.DeleteCategory | Frontend/src/pages/admin/Categories.jsx:64-73 | nothing without confirmation; otherwise a delete, then a refetch on success |
| AdminCategories.EditThenSubmit | Frontend/src/pages/admin/Categories.jsx:31-56 | editing then submitting sends an update of that category; success leaves edit mode, failure stays in it |
| AdminProducts.WithField | Frontend/src/pages/admin/Products.jsx:53-55 | a change sets exactly the named field |
| AdminProducts.CategoryValue | Frontend/src/pages/admin/Products.jsx:82 | the form holds the category's id, whether the product carries a key or an object |
| AdminProducts.EditForm | Frontend/src/pages/admin/Products.jsx:76-86 | the edit form is filled from the product, its category as an id |
| AdminProducts.Products.constructor | Frontend/src/pages/admin/Products.jsx:7-17 | the page's initial state |
| AdminProducts.Products.LoadProducts | Frontend/src/pages/admin/Products.jsx:25-37 | success shows the products; failure keeps them and shows an error |
| AdminProducts.Products.LoadCategories | Frontend/src/pages/admin/Products.jsx:39-51 | success shows the categories; failure keeps them and shows an error |
| AdminProducts.Products.HandleChange | Frontend/src/pages/admin/Products.jsx:53-55 | one form field changes |
| AdminProducts.Products.HandleSubmit | Frontend/src/pages/admin/Products.jsx:57-74 | sends an update of the edited product or a create; success refetches, clears the form and leaves edit mode |
| AdminProducts.Products.HandleEdit | Frontend/src/pages/admin/Products.jsx:76-86 | edit mode holds the product and its form |
| AdminProducts.Products.HandleDelete | Frontend/src/pages/admin/Products.jsx:88-97 | nothing without confirmation; otherwise a delete, then a refetch on success |
| AdminProducts.EditThenSubmit | Frontend/src/pages/admin/Products.jsx:57-86 | editing then submitting sends an update of that product with its edit form |
| AdminOrders.StatusClass | Frontend/src/pages/admin/Orders.jsx:28-41 | Delivered is green, Pending yellow, Processing blue, Cancelled red |
| AdminOrders.GrayExactlyWhenUnknown | Frontend/src/pages/admin/Orders.jsx:28-41 | gray exactly for a missing or unlisted status, Shipped included |
| AdminOrders.ColouredStatusesDistinguishable | Frontend/src/pages/admin/Orders.jsx:28-41 | two different coloured statuses never share a badge class |
| AdminOrders.OrderStatus | Frontend/src/pages/admin/Orders.jsx:72 | `order.shipping_address?.order_status`, missing when there is no shipping record |
| AdminOrders.StatusText | Frontend/src/pages/admin/Orders.jsx:75 | the status, or "N/A" when it is missing or empty |
| AdminOrders.Loaded | Frontend/src/pages/admin/Orders.jsx:11-26 | success shows the orders; failure keeps them and shows one error, the login message exactly on a 401 |
| AdminOrderDetail.InitialStatus | Frontend/src/pages/admin/OrderDetail.jsx:21 | the order's status, or "Pending" when it is missing or empty |
| AdminOrderDetail.Badge | Frontend/src/pages/admin/OrderDetail.jsx:91-101 | the badge's chain of conditionals; BadgeIsStatusClass states its meaning |
| AdminOrderDetail.BadgeIsStatusClass | Frontend/src/pages/admin/OrderDetail.jsx:91-101 | the detail badge agrees with the list's status class |
| AdminOrderDetail.OnlyShippedIsGray | Frontend/src/pages/admin/OrderDetail.jsx:117-121 | among the selectable statuses only Shipped has the gray badge |
| AdminOrderDetail.Subtotal | Frontend/src/pages/admin/OrderDetail.jsx:158 | a line's subtotal is 0 with no quantity and the price for one |
| AdminOrderDetail.SubtotalSum | Frontend/src/pages/admin/OrderDetail.jsx:149-161 | the listed subtotals added up |
| AdminOrderDetail.SubtotalsAddUpToOrderTotal | Frontend/src/pages/admin/OrderDetail.jsx:149-161 | the page's subtotals of an order's lines add up to the stored lines' total, which checkout makes the order's total price |
| AdminOrderDetail.OrderDetailPage.constructor | Frontend/src/pages/admin/OrderDetail.jsx:8-10 | no order loaded and no status chosen |
| AdminOrderDetail.OrderDetailPage.Fetch | Frontend/src/pages/admin/OrderDetail.jsx:17-30 | success shows the order and selects its initial status; failure changes nothing and shows an error |
| AdminOrderDetail.OrderDetailPage.SetStatus | Frontend/src/pages/admin/OrderDetail.jsx:117 | the selection changes |
| AdminOrderDetail.OrderDetailPage.UpdateStatus | Frontend/src/pages/admin/OrderDetail.jsx:32-42 | the patch sends the selected status for the loaded order; success reloads the order and then shows the success message; failure shows one error |

## Left out

- Floating-point prices, `DecimalField` rounding and `toFixed(2)`: amounts are integers.
- Django's and DRF's own field validation, apart from the two cases below: the required, non-blank and trimming behaviour of the registration and user-login fields (a blank field is refused before any `validate_*` method runs), the `EmailField` format, the username field's 150-character limit and character set, `PositiveIntegerField` and its database CHECK constraint. DRF's validation messages become `Invalid(field)`.
- AdminsViews.UpdateStatus: `ColumnOk` models the shipping serializer's non-blank and `max_length` checks, but not DRF's `trim_whitespace`. So the model accepts a value of spaces only, such as `"  "`, which DRF refuses as blank. It also stores `" Shipped "` as sent, where DRF saves `"Shipped"`.
- AdminsViews.AdminLogin: `Given` models the non-blank check of the two `CharField`s, but not their trimming. A username or password of spaces only is not refused, and `authenticate` receives the values untrimmed, where DRF trims them first.
- UsersSerializers.Accounts.Register: the model field's `UniqueValidator` on `User.username` runs before `validate_username`. At the endpoint a short taken username therefore gets "A user with that username already exists." and not the length message. ShortUsernameIgnoresAccounts and RegisterErrors describe the `validate_*` methods alone.
- UsersSerializers.Accounts.Register: `User.email` is `blank=True`, so the serializer's email field is optional. A body without an email passes validation, and `create` then raises a KeyError reading `validated_data['email']` (Backend/apps/users/serializers.py:36), which is a 500. The model takes an email string and cannot express this case.
- ProductsViews.Store.Checkout: an explicit `"shipping_details": null` makes `data.get` return `None` (Backend/apps/products/views.py:76). The `.get` at line 109 then raises after the order and its lines are written, unless the project's settings, which are outside the source, make requests atomic. The model treats `null` like a missing key, stores "" in every column and reports success. It has no case for this partial write.
- ProductsViews.Store.Checkout: an explicit `"payment_method": null` reaches `Order.objects.create(payment_method=None)`, a NOT NULL failure. The model uses "card" for it, as for a missing key.
- ProductsViews.Store.AddItem: when both `product_id` and `quantity` are invalid, DRF reports both fields. The model reports only `Invalid("product_id")`.
- ProductsViews.Store.Checkout: does not model negative submitted quantities (a quantity is a `nat`) or the shipping columns' maximum lengths at create time.
- ProductsViews.Store.Checkout: `Product.objects.get` on an unknown id raises an exception the view does not catch; the model reports it as `ServerError`. The store is unchanged because the lookup fails in the first loop, before anything is written.
- AdminsViews.UpdateStatus: an unknown order is the 404 raised by `get_object`, without a message body.
- `AdminPermission` is not attached to any viewset in the source. The category, product and user viewsets use DRF's `IsAdminUser`, which is not modelled. `AdminOrderViewSet`, behind AdminsViews.UpdateStatus, sets no `permission_classes` and falls back to the project's default, which is outside the source; UpdateStatus therefore takes no requester and checks no permission.
- JWT token creation (`RefreshToken.for_user`) and `authenticate` are parameters (`mint`, `authenticate`).
- React rendering and layout, effects' scheduling, asynchrony and races between replies. Each handler is modelled as running to completion with the server's reply given.
- Timers: the username popup's timeout and the register page's delayed redirect.
- The user API client (`Frontend/src/api/user/axios.js`) is not part of this model; the admin client's request-interceptor error handler (`Promise.reject`) only passes the error on and has no member.
- The cart page's checkout button, which only navigates to /payment.
- AdminProducts.Products.HandleSubmit: the browser's form validation is not modelled. The five inputs are `required` (Frontend/src/pages/admin/Products.jsx:113-147), so the page never submits an empty field, but the contract also covers such forms.
- RegisterPage.Register.HandleSubmit: the browser's form validation is not modelled. The inputs are `required` and the email input is `type="email"` (Frontend/src/pages/user/Register.jsx:72-105), so the "Please fill all fields" branch is specified for a state the page never submits.
- UserLogin.HandleSubmit: the browser's form validation is not modelled. Both inputs are `required` (Frontend/src/pages/user/Login.jsx:46-55). The handler is specified by the server's reply alone, so it also covers an empty email or password, which the page never submits.
- Text.ToLower: lower-cases ASCII letters only, not the full Unicode case mapping of `toLowerCase`.
- `App.js` routing, the dashboard, the contact, about and home pages, and the footer carry no logic of the core.
