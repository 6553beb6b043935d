# e-shop: a Dafny model of the shop's business logic

This project models the small business rules of the e-shop. They live in
two places: the React frontend and the Spring service layer of the backend.
The model proves properties of those rules.

**The React frontend.**
- The cart page. It computes the subtotal, the item count, the shipping
  tariff and the amount due. It normalises and validates the phone number
  and validates the delivery draft. It edits the cart list locally after an
  update or a remove, and runs the checkout dialog.
- The product page. It has the quantity stepper, the shown line total and
  the add-to-cart precondition.
- The catalogue. It filters by search term, category and price, sorts,
  slices the results into pages, computes the pagination window and clamps
  the price inputs.
- The order history. It filters by status and date, looks up labels,
  builds the delivery lines and counts items.
- The sign-up form. It scores password strength, validates each field and
  maps server refusals onto the form.
- The admin panel. It collapses a user's roles to one displayed role, and
  handles the status selector and the complete button, the product edit
  forms and the delete confirmation.
- The authentication context. It normalises roles, reads roles from the
  token, and handles the profile bootstrap, login, sign-up, logout and
  `hasRole`/`hasAnyRole`.
- The route table, with its private and admin guards.

**The Spring service layer.**
- The cart service, which keeps one cart per user and its items.
- The order service. It turns a cart into an order, copies an order on
  reorder, sets the status, and looks orders up, deletes them and queries
  them by date range.
- The `Order` entity, with its defaults, setters and total.
- Replacing a user's roles by one named role.
- Sign-up, with its duplicate checks.
- The order controller's status pass-through and its partial merge of
  delivery info.

Layout:
- One module per source component: `CartView`, `ProductDetail`, `Catalog`,
  `OrderHistory`, `Registration`, `AdminPanel`, `Session`, `Routing`,
  `Carts`, `Orders`, `OrderEntity`, `Accounts` and `OrderEndpoints`.
- Shared modules:
  - `Wrappers`: Option, Result and Outcome, plus `Lookup`, which is Java's
    `Map.get`;
  - `Text`: trimming, ASCII case mapping, `indexOf`/`replace`, and digit
    extraction;
  - `Lists`: `Array.prototype.filter`;
  - `Sorting`: a stable insertion sort, which stands for `Array.prototype.sort`
    and `Stream.sorted`;
  - `Patterns`: a small regular-expression matcher for the phone, username
    and email patterns;
  - `ShopData`: the records the frontend receives;
  - `Repositories`: Spring Data repositories as classes holding a map from
    id to row, with a `nextId` counter for generated ids.

How state is modelled:
- A page's state is a class. Its handlers are methods whose postconditions
  give the new state.
- A server reply, a `window.confirm` answer and a response outcome are each
  a parameter of the method that receives it.
- A service is a class holding references to its repositories.

Quirks of the source that the model keeps as written:
- Role normalisation removes the first case-sensitive `ROLE_` and then
  upper-cases. It is therefore not idempotent: `Session.NormalizeNotIdempotent`
  shows this on "role_admin".
- After a login the stored roles are not normalised. The admin flag tests
  the raw "ROLE_ADMIN". `Session.LoginRolesUnrecognised` shows that
  `hasRole` then recognises none of the roles.
- A `roles` claim that is an empty array still shadows `authorities`.
- The cart page charges 250 for an unknown shipping method. The backend
  leaves the cost at 0 (`Orders.TariffAgreesWithPage`).
- Reorder drops the delivery notes (`Orders.ReorderCopies`). The
  controller's success message for reorder says the order was added to the
  cart, but reorder creates a new order and leaves the cart alone.
- `updateCartItemQuantity` stores any quantity, zero and negatives
  included (`Carts.UpdateStoresAnyQuantity`).
- The delivery-info merge does not recompute the shipping cost
  (`OrderEndpoints.MergedKeepsCost`).
- An entered 0 in the maximum price input keeps the old maximum. Raising
  the minimum above the maximum is not prevented.
- An end-date filter on the order history means midnight at the start of
  that day, so orders placed later that day are excluded
  (`OrderHistory.EndDayExcluded`).
- The admin route's loading placeholder can never show, because the
  authentication provider renders nothing below it while loading
  (`Routing.AdminPlaceholderUnreachable`).
- Routes match without regard to letter case, so "/Cart" shows the cart
  and "/ADMIN" the guarded admin panel; a product id is passed on as
  typed (`Routing.RoutesIgnoreCase`).
- Role normalisation drops the first "ROLE_" wherever it occurs, so
  "XROLE_" becomes "X" (`Session.InnerPrefixDropped`).
- The username length check counts untrimmed characters.
- The email pattern's domain part may itself contain dots.

Where the intended behaviour and the code disagree, the model follows the
code:
- `CartService.addToCart` looks up and creates the user's cart *before* it
  looks up the product (CartService.java:32-34). An unknown product
  therefore fails after a missing cart has been created and stored, not
  before anything changed (`Carts.CartService.AddToCart`).
- The sign-up page treats a refusal containing "уже существует" as a
  duplicate and marks the username and email fields. The backend's two
  duplicate refusals say "уже занято!" and "уже используется!", and the
  endpoint passes them through unchanged. They therefore always show as
  the form's general submit error (`Accounts.DuplicateRefusalShownUnderForm`).

## Model

| member | source | states |
|---|---|---|
| CartView.Subtotal | frontend/src/components/Cart.js:237-242 | A missing cart totals 0; otherwise the left-to-right reduce from 0 equals the sum of price × quantity over the lines |
| CartView.ItemsCount | frontend/src/components/Cart.js:244-247 | A missing cart counts 0; otherwise the left-to-right reduce from 0 equals the sum of the quantities |
| CartView.FoldsAreSums | frontend/src/components/Cart.js:237-247 | Both reduces, started from any value, give that value plus the sum over the lines |
| CartView.TotalsAppend | frontend/src/components/Cart.js:237-247 | Both reductions are additive over concatenated line lists |
| CartView.TotalsExamples | frontend/src/components/Cart.js:237-247 | The empty cart gives 0 and 0; 2 × 100 plus 1 × 50 gives 250 and 3 items |
| CartView.ShippingCost | frontend/src/components/Cart.js:249-259 | 500 exactly for EXPRESS, 0 exactly for PICKUP, 250 for STANDARD and every other value |
| CartView.AmountDueBounds | frontend/src/components/Cart.js:303-304 | The amount due exceeds the subtotal by 0, 250 or 500; by 250 under STANDARD |
| CartView.WithQuantity | frontend/src/components/Cart.js:102-109 | The local update keeps the number of lines |
| CartView.WithQuantityPointwise | frontend/src/components/Cart.js:102-109 | Each line of the product gets the new quantity; every other line, and the order, is unchanged |
| CartView.WithoutProduct | frontend/src/components/Cart.js:72-75 | The local remove never adds lines |
| CartView.WithoutProductMembers | frontend/src/components/Cart.js:72-75 | The remaining lines are exactly the lines of other products |
| CartView.WithoutProductAppend | frontend/src/components/Cart.js:72-75 | The remove distributes over concatenation, so it keeps the original order |
| CartView.RemoveSplitsLines | frontend/src/components/Cart.js:72-75 | The kept lines and the removed product's lines together are the original multiset |
| CartView.RemoveSplitsTotals | frontend/src/components/Cart.js:72-75 | The subtotal and the item count split between the kept and the removed lines |
| CartView.UpdateCount | frontend/src/components/Cart.js:102-109 | After an update, the item count is the other lines' count plus quantity × the product's number of lines |
| CartView.FormatPhone | frontend/src/components/Cart.js:169-178 | The loop over the characters computes the normalised phone |
| CartView.PhoneShape | frontend/src/components/Cart.js:169-178 | The result is digits with at most a leading '+'; with the '+' it has 12 characters and starts "+7" |
| CartView.PhoneNormalizationIdempotent | frontend/src/components/Cart.js:169-178 | Normalising a normalised phone changes nothing |
| CartView.TenDigitNormalization | frontend/src/components/Cart.js:169-178 | "8", "7" or "+7" before ten digits gives "+7" and the ten digits; ten bare digits not starting with 8 stay as they are |
| CartView.PatternDigits | frontend/src/components/Cart.js:132-135 | Any text that matches the phone pattern has 10 digits, or 11 digits starting with 7 or 8 |
| CartView.ValidPhoneDigits | frontend/src/components/Cart.js:132-135 | A valid phone has 10 digits, or 11 digits starting with 7 or 8 |
| CartView.FewDigitsRejected | frontend/src/components/Cart.js:132-135 | Fewer than ten digits is never valid |
| CartView.BlankPhoneInvalid | frontend/src/components/Cart.js:132-135 | A blank phone is never valid |
| CartView.TenDigitPhonesAccepted | frontend/src/components/Cart.js:132-135 | Ten digits alone, or after "+7", "8" or "7", are valid |
| CartView.PrefixedPhoneAccepted | frontend/src/components/Cart.js:132-135 | Each of the three prefixes before ten digits is valid |
| CartView.ValidPhoneNormalizesToTenDigits | frontend/src/components/Cart.js:132-178 | A valid phone normalises to "+7" and ten digits, or to ten bare digits |
| CartView.DeliveryErrorsMeaning | frontend/src/components/Cart.js:137-167 | Each field has an error exactly when its check fails: trimmed address under 10, trimmed name under 2, phone invalid. The message is the "required" one when the field is blank and the other one otherwise |
| CartView.DraftValidIff | frontend/src/components/Cart.js:137-167 | The draft is valid iff all three field checks pass |
| CartView.ValidateDeliveryInfo | frontend/src/components/Cart.js:137-167 | The step-by-step validation yields exactly those errors, and reports valid iff there are none |
| CartView.CartPage.constructor | frontend/src/components/Cart.js:8-23 | The initial state: the fetched cart, the draft defaults from the user, no errors, the modal closed |
| CartView.CartPage.RemoveFromCart | frontend/src/components/Cart.js:53-80 | A declined confirm sends nothing and changes nothing; a successful remove keeps the other products' lines in order; the draft is untouched |
| CartView.CartPage.UpdateQuantity | frontend/src/components/Cart.js:82-114 | A quantity below 1 behaves exactly as the remove; otherwise the update request is sent and, on success, the list is updated locally |
| CartView.CartPage.Checkout | frontend/src/components/Cart.js:180-187 | The dialog opens only for a non-empty cart |
| CartView.CartPage.ConfirmCheckout | frontend/src/components/Cart.js:189-235 | An invalid draft sends nothing. A valid draft sends the order; success clears the cart and resets the draft, failure keeps both |
| ProductDetail.StepperBounds | frontend/src/components/ProductDetail.js:78-86 | The stepper keeps the quantity at least 1; a step up is undone by a step down; 1 cannot be decremented |
| ProductDetail.ShownTotalSteps | frontend/src/components/ProductDetail.js:165 | One step up adds one price to the shown total |
| ProductDetail.ShownTotalIsCartTotal | frontend/src/components/ProductDetail.js:165 | The button's price is the cart page's subtotal for a cart of just that product in that quantity |
| ProductDetail.FetchError | frontend/src/components/ProductDetail.js:18-43 | The error is None exactly for a successful body; an HTTP error gives the status message; a refusal gives a non-empty message; a rejected request or a non-JSON body gives the thrown message |
| ProductDetail.RefusalAlert | frontend/src/components/ProductDetail.js:66-74 | A failed add (not ok, or success false) alerts the server's error, or the fixed fallback |
| ProductDetail.ProductDetailPage.constructor | frontend/src/components/ProductDetail.js:9-12 | The page starts loading, with no product and quantity 1 |
| ProductDetail.ProductDetailPage.FetchProduct | frontend/src/components/ProductDetail.js:18-43 | Loading ends; the product is kept only when there is no error |
| ProductDetail.ProductDetailPage.IncrementQuantity | frontend/src/components/ProductDetail.js:78-80 | The quantity goes up by one and stays at least 1 |
| ProductDetail.ProductDetailPage.DecrementQuantity | frontend/src/components/ProductDetail.js:82-86 | The quantity goes down only above 1 |
| ProductDetail.ProductDetailPage.AddToCart | frontend/src/components/ProductDetail.js:45-76 | Without a token nothing is sent and the page goes to /login; otherwise the page's id and quantity (at least 1) are sent |
| Catalog.FilterStages | frontend/src/components/ProductList.js:72-92 | The three filter stages, each applied only when active, keep exactly the selected products |
| Catalog.FilterProducts | frontend/src/components/ProductList.js:72-113 | The step-by-step filter and sort computes the filtered list |
| Catalog.FilteredMembers | frontend/src/components/ProductList.js:72-109 | The result is a permutation of the selection; a product is in it iff it is in the catalogue and passes the term, category and inclusive price checks |
| Catalog.DefaultOrderKept | frontend/src/components/ProductList.js:94-109 | An unrecognised sort key keeps the original order |
| Catalog.PriceOrders | frontend/src/components/ProductList.js:94-100 | price-asc is non-decreasing and price-desc non-increasing |
| Catalog.UncategorisedDropped | frontend/src/components/ProductList.js:83-87 | A product without a category never survives a category filter |
| Catalog.TotalPages | frontend/src/components/ProductList.js:212 | The page count is the ceiling of n / 12 |
| Catalog.Slice | frontend/src/components/ProductList.js:209-211 | `slice` has JavaScript's length for in-range bounds, and is empty otherwise |
| Catalog.PageContents | frontend/src/components/ProductList.js:209-212 | Page p holds at most 12 items, starting at (p - 1) × 12, and is non-empty iff p ≤ the page count |
| Catalog.PaginationWindow | frontend/src/components/ProductList.js:216-229 | The window has min(5, pages) consecutive numbers inside [1, pages] and contains the current page when that page is in range |
| Catalog.MinInput | frontend/src/components/ProductList.js:386-390 | The minimum is never negative and keeps a non-negative entry |
| Catalog.MaxInput | frontend/src/components/ProductList.js:401-404 | The maximum is never below the minimum. An entry at least the minimum is kept; an entry of 0 keeps the old maximum |
| Catalog.MaxPrice | frontend/src/components/ProductList.js:47-48 | The maximum price is attained and bounds every price |
| Catalog.ProductListPage.constructor | frontend/src/components/ProductList.js:8-21 | The initial filters: empty search, all categories, default sort, range 0 to 100000, page 1 |
| Catalog.ProductListPage.FetchProducts | frontend/src/components/ProductList.js:32-59 | A successful fetch stores the products and sets the maximum to the top price; a failure empties the lists |
| Catalog.ProductListPage.Refilter | frontend/src/components/ProductList.js:72-113 | The filtered list is recomputed and the page goes back to 1 |
| Catalog.ProductListPage.Paginate | frontend/src/components/ProductList.js:214 | Only the current page changes |
| Catalog.ProductListPage.SetMin | frontend/src/components/ProductList.js:386-390 | Only the minimum changes, and it is clamped |
| Catalog.ProductListPage.SetMax | frontend/src/components/ProductList.js:401-404 | Only the maximum changes, and it is clamped to at least the minimum |
| Catalog.ProductListPage.ClearFilters | frontend/src/components/ProductList.js:201-207 | The search, category and sort reset; the range becomes 0 to the current maximum |
| OrderHistory.FilteredMeaning | frontend/src/components/OrderHistory.js:81-85 | An order is listed iff it matches a set status and lies within the set dates, both ends inclusive |
| OrderHistory.FilteredKeepsOrder | frontend/src/components/OrderHistory.js:81-85 | Filtering distributes over concatenation, so the order is preserved |
| OrderHistory.NoFiltersListAll | frontend/src/components/OrderHistory.js:81-85 | With no filters every order is listed |
| OrderHistory.EndDayExcluded | frontend/src/components/OrderHistory.js:84 | An order placed after midnight on the end date is excluded |
| OrderHistory.StatusTextCases | frontend/src/components/OrderHistory.js:43-54 | Exactly seven codes, CONFIRMED included, have labels; any other status is shown as it is |
| OrderHistory.StatusTextInjective | frontend/src/components/OrderHistory.js:43-54 | Distinct known codes get distinct labels |
| OrderHistory.AdminStatusesLabelled | frontend/src/components/OrderHistory.js:43-54 | Every status the admin can set has a label of its own |
| OrderHistory.ShippingMethodTextCases | frontend/src/components/OrderHistory.js:56-63 | Exactly the three methods have labels; anything else is shown as it is |
| OrderHistory.FormatDeliveryInfo | frontend/src/components/OrderHistory.js:105-120 | The pushes build the delivery lines |
| OrderHistory.DeliveryLinesShape | frontend/src/components/OrderHistory.js:105-120 | One line per present field; the recipient name and the items never matter |
| OrderHistory.DeliveryLinesOrder | frontend/src/components/OrderHistory.js:105-120 | The address comes first and the notes last; with no fields there are no lines |
| OrderHistory.ItemCount | frontend/src/components/OrderHistory.js:256 | The count is 0 without items; otherwise the left-to-right reduce from 0, with its `\|\| 0` fallback, equals the sum of the quantities |
| OrderHistory.FoldQuantityIsSum | frontend/src/components/OrderHistory.js:256 | The reduce, started from any value, gives that value plus the sum of the quantities |
| OrderHistory.ItemCountBounds | frontend/src/components/OrderHistory.js:256 | With positive quantities the count is at least the number of items, and 0 only for none |
| OrderHistory.FirstText | frontend/src/components/OrderHistory.js:30-39 | The error shown is the first truthy message, or the non-empty fallback |
| OrderHistory.OrderHistoryPage.constructor | frontend/src/components/OrderHistory.js:8-15 | The page starts loading, with no orders and empty filters |
| OrderHistory.OrderHistoryPage.FetchOrders | frontend/src/components/OrderHistory.js:21-41 | Loading ends; success stores the orders; failure keeps them and sets a non-empty error |
| OrderHistory.OrderHistoryPage.SetStatusFilter | frontend/src/components/OrderHistory.js:65-71 | Only the status filter changes |
| OrderHistory.OrderHistoryPage.SetDateFilter | frontend/src/components/OrderHistory.js:65-71 | Only the named date filter changes |
| OrderHistory.OrderHistoryPage.ClearFilters | frontend/src/components/OrderHistory.js:73-79 | All filters reset and the listed orders are all the orders |
| Registration.CheckPasswordStrength | frontend/src/components/Register.js:26-54 | The accumulating checks compute the score, text and rule list |
| Registration.StrengthBands | frontend/src/components/Register.js:30-51 | The score is at most 5 and is built point by point; ≤ 2 is weak, 3-4 medium, 5 strong; an empty password gives 0 and no text |
| Registration.StrongIff | frontend/src/components/Register.js:30-46 | Score 5 iff length ≥ 12 with lower, upper, digit and special characters |
| Registration.ScoreMonotone | frontend/src/components/Register.js:30-46 | Appending characters never lowers the score |
| Registration.KindsKept | frontend/src/components/Register.js:36-46 | Appending characters keeps every character kind already present |
| Registration.DigitsOnlyWeak | frontend/src/components/Register.js:26-54 | "123" scores 1, weak, with only the digit rule |
| Registration.Add | frontend/src/components/Register.js:63-98 | An error adds its key; no error leaves the keys alone |
| Registration.ValidateForm | frontend/src/components/Register.js:63-98 | The step-by-step validation yields exactly the form's errors, and valid iff there are none |
| Registration.UsernamePatternMeaning | frontend/src/components/Register.js:70 | The username pattern matches exactly non-empty strings of letters, digits and '_' |
| Registration.EmailPatternMeaning | frontend/src/components/Register.js:76 | The email pattern matches iff the text splits as local@domain.tld, with no spaces or '@' in the parts |
| Registration.UsernameOkIff | frontend/src/components/Register.js:66-72 | No username error iff at least 3 characters, all word characters |
| Registration.EmailOkIff | frontend/src/components/Register.js:74-78 | No email error iff the text splits as local@domain.tld |
| Registration.NoErrorsIff | frontend/src/components/Register.js:63-98 | No errors iff each of the five field checks passes |
| Registration.FormValidIff | frontend/src/components/Register.js:63-98 | The form is valid iff username, email, password (≥ 8 and score ≥ 3), confirmation and terms all pass |
| Registration.UsernameErrorOrder | frontend/src/components/Register.js:66-72 | The first failing check wins: blank, then short, then bad characters |
| Registration.ShortPasswordRejected | frontend/src/components/Register.js:80-86 | A password under 8 characters always has an error |
| Registration.SubmitErrors | frontend/src/components/Register.js:123-132 | A message containing "уже существует" marks username and email; any other goes, non-empty, under submit |
| Registration.ClearedMeaning | frontend/src/components/Register.js:145-150 | Editing a field blanks that field's error and the submit error only |
| Registration.Edited | frontend/src/components/Register.js:139-143 | The checkbox sets the terms flag and nothing else; a text input sets its own value to the text and leaves every other value and the flag as they were |
| Registration.RegisterPage.constructor | frontend/src/components/Register.js:7-20 | The empty form with no errors, no success and not loading |
| Registration.RegisterPage.Change | frontend/src/components/Register.js:138-150 | The edited form and the cleared errors |
| Registration.RegisterPage.Submit | frontend/src/components/Register.js:100-136 | register is called iff the form is valid; success shows the message and clears the errors; a refusal is mapped onto the form |
| Registration.RefusalMessages | frontend/src/components/Register.js:123-132 | Each refusal maps either onto the two fields or onto submit, never both |
| AdminPanel.HighestIsFirstMaximal | frontend/src/components/AdminPanel.js:253-261 | The reduce picks the earliest element of maximal priority |
| AdminPanel.NoRolesShowUser | frontend/src/components/AdminPanel.js:250-251 | A missing or empty role list shows ROLE_USER |
| AdminPanel.DisplayRoleFromList | frontend/src/components/AdminPanel.js:253-262 | For a non-empty list the shown role is the first element of maximal priority |
| AdminPanel.DisplayRoleCases | frontend/src/components/AdminPanel.js:253-262 | Any ROLE_ADMIN gives ROLE_ADMIN; only unknown names give the first name |
| AdminPanel.DisplayedRoleSelectable | frontend/src/components/AdminPanel.js:250-263 | The shown role is a choice of the role selector unless every role is unknown |
| AdminPanel.CompleteAction | frontend/src/components/AdminPanel.js:341 | The complete button asks for COMPLETED, one of the selector's six choices, without looking at the current status |
| AdminPanel.AdminPanelPage.constructor | frontend/src/components/AdminPanel.js:16-29 | Both forms start empty and nothing is being edited |
| AdminPanel.AdminPanelPage.StartEdit | frontend/src/components/AdminPanel.js:171-179 | The product is being edited, with its copied form |
| AdminPanel.AdminPanelPage.CancelEdit | frontend/src/components/AdminPanel.js:181-189 | Nothing is being edited and the form is empty |
| AdminPanel.AdminPanelPage.SubmitCreate | frontend/src/components/AdminPanel.js:130-149 | The form is sent; a success resets it to empty strings |
| AdminPanel.AdminPanelPage.SubmitUpdate | frontend/src/components/AdminPanel.js:191-210 | The edited form is sent; a success ends the edit |
| AdminPanel.AdminPanelPage.Delete | frontend/src/components/AdminPanel.js:151-152 | A declined confirmation sends nothing |
| Session.LeadingPrefixStripped | frontend/src/context/AuthContext.js:37-39 | A leading "ROLE_" is removed before upper-casing |
| Session.NormalizeWithoutCapitalR | frontend/src/context/AuthContext.js:37-39 | A role with no capital R is only upper-cased |
| Session.NormalizeWithoutPrefix | frontend/src/context/AuthContext.js:37-39 | A role in which "ROLE_" occurs nowhere is only upper-cased |
| Session.InnerPrefixDropped | frontend/src/context/AuthContext.js:37-39 | The first "ROLE_" is dropped even when it does not lead: "XROLE_" gives "X" |
| Session.AdminSpellings | frontend/src/context/AuthContext.js:37-39 | "ROLE_ADMIN", "admin" and "ADMIN" all give "ADMIN" |
| Session.NormalizeNotIdempotent | frontend/src/context/AuthContext.js:37-39 | "role_admin" gives "ROLE_ADMIN", and normalising again gives "ADMIN" |
| Session.NormalizeStable | frontend/src/context/AuthContext.js:37-39 | A result that no longer contains "ROLE_" is stable under normalisation |
| Session.TokenRoles | frontend/src/context/AuthContext.js:21-50 | Roles are read only from a three-part token with a readable payload, one per claim entry |
| Session.RolesClaimWins | frontend/src/context/AuthContext.js:29-39 | A truthy roles claim wins, even an empty array |
| Session.ScalarClaim | frontend/src/context/AuthContext.js:31-39 | Without roles, a scalar authorities claim gives one normalised role |
| Session.AuthoritiesBeforeScope | frontend/src/context/AuthContext.js:29-39 | Without a truthy roles claim, truthy authorities are read, whatever the scope holds |
| Session.NoClaim | frontend/src/context/AuthContext.js:27-35 | With no claim the roles are empty |
| Session.ThrownMessage | frontend/src/context/AuthContext.js:151-154 | The server's error wins, then the exception's message, then the non-empty fallback |
| Session.WithRoles | frontend/src/context/AuthContext.js:41-42 | Setting roles keeps the admin flag equal to "ADMIN" in the roles |
| Session.LoginOutcome | frontend/src/context/AuthContext.js:119-155 | Login passes iff the reply carries a token; otherwise a non-empty message, "server reply" for a reply without one |
| Session.RegisterOutcome | frontend/src/context/AuthContext.js:157-178 | Sign-up succeeds iff the reply says success, with its message; otherwise a non-empty message |
| Session.HasAnyRoleIff | frontend/src/context/AuthContext.js:187-194 | hasAnyRole holds iff hasRole holds for some name, so never for none |
| Session.ReadTokenKeepsConsistent | frontend/src/context/AuthContext.js:21-50 | Reading the token keeps the admin flag consistent and touches only the roles and the flag |
| Session.FetchWithoutToken | frontend/src/context/AuthContext.js:52-57 | With no stored token only loading changes |
| Session.FetchFailureSignsOut | frontend/src/context/AuthContext.js:87-112 | A failed profile fetch removes the token and ends signed out |
| Session.FetchEndsLoaded | frontend/src/context/AuthContext.js:52-113 | Every bootstrap path ends with loading false |
| Session.FetchKeepsConsistent | frontend/src/context/AuthContext.js:52-113 | The bootstrap keeps the admin flag consistent with the roles |
| Session.ProfileRoles | frontend/src/context/AuthContext.js:69-85 | The profile's roles replace the token's only when non-empty; the user record keeps the profile roles or [] |
| Session.LoginStoresRawRoles | frontend/src/context/AuthContext.js:119-155 | An accepted login stores the token, the raw roles and a user record of the reply's name, email and raw roles, without an id; the flag tests raw "ROLE_ADMIN"; a refused login changes nothing |
| Session.LoginRolesUnrecognised | frontend/src/context/AuthContext.js:140-142 | After logging in with ROLE_ADMIN and ROLE_USER the user is admin, but hasRole recognises neither role |
| Session.LogoutSignsOut | frontend/src/context/AuthContext.js:180-185 | Logout removes the token and the user, and no role remains |
| Session.AuthProvider.constructor | frontend/src/context/AuthContext.js:16-19 | The provider starts loading, signed out, with the stored token |
| Session.AuthProvider.CheckRolesFromToken | frontend/src/context/AuthContext.js:21-50 | Returns the token's roles or [], and sets the state as reading the token says |
| Session.AuthProvider.FetchUser | frontend/src/context/AuthContext.js:52-113 | The state after the bootstrap |
| Session.AuthProvider.Login | frontend/src/context/AuthContext.js:119-155 | The login outcome and the state after login |
| Session.AuthProvider.Logout | frontend/src/context/AuthContext.js:180-185 | The signed-out state |
| Routing.AdminRouteOutcomes | frontend/src/components/AdminRoot.js:5-22 | Pending while loading; a non-admin is redirected to "/" with replace; an admin gets the children, and only then |
| Routing.PublicRoutes | frontend/src/App.js:24-27 | "/", "/login", "/register" and "/product/:id", in any letter case, render a page of their own, whatever the guards say |
| Routing.PrivateRoutes | frontend/src/App.js:29-39 | "/cart" and "/orders", in any letter case, pass the private guard only |
| Routing.AdminRoutes | frontend/src/App.js:41-47 | "/admin/*", with "admin" in any letter case, goes through the private guard before the admin guard |
| Routing.AdminFirst | frontend/src/App.js:24-47 | A first segment "admin" matches none of the routes listed before "/admin/*" |
| Routing.AdminPanelGated | frontend/src/App.js:41-47 | The admin panel shows only past both guards, as an admin, once loaded, and only under a first segment that lower-cases to "admin" |
| Routing.UnknownPathsRedirect | frontend/src/App.js:49 | A path that, lower-cased, names none of the routes redirects to "/" with replace |
| Routing.RoutesIgnoreCase | frontend/src/App.js:23-50 | Lower-casing every segment picks the same route; only a product id passed on is lower-cased with it |
| Routing.MixedCaseExamples | frontend/src/App.js:29-47 | "/Cart", "/ADMIN/users" and "/Product/7" reach the cart, the admin panel and product 7 |
| Routing.AdminPlaceholderUnreachable | frontend/src/context/AuthContext.js:216 | Under the provider, the admin route's loading state never shows |
| Carts.FirstLine | backend/src/main/java/com/example/ecommerce/service/CartService.java:36-39 | The index found is the first line of the product; None when the product has no line |
| Carts.FindFirst | backend/src/main/java/com/example/ecommerce/service/CartService.java:36-39 | The item-by-item search finds exactly that index |
| Carts.CreatedOnce | backend/src/main/java/com/example/ecommerce/service/CartService.java:22-29 | The user then has a cart: an existing one is kept, a new one is empty. Other users' carts are untouched, and a second call finds the same cart |
| Carts.AddMerges | backend/src/main/java/com/example/ecommerce/service/CartService.java:36-42 | A product with a line gains quantity on that line only; the line count is unchanged |
| Carts.AddAppends | backend/src/main/java/com/example/ecommerce/service/CartService.java:44-46 | A new product appends exactly one line with the quantity |
| Carts.AddKeepsOneLinePerProduct | backend/src/main/java/com/example/ecommerce/service/CartService.java:36-46 | Adding keeps at most one line per product |
| Carts.UpdateMatchesPage | backend/src/main/java/com/example/ecommerce/service/CartService.java:57-66 | With one line per product, the service's update equals the cart page's local edit |
| Carts.RemoveAbsent | backend/src/main/java/com/example/ecommerce/service/CartService.java:51-55 | Removing an absent product changes nothing |
| Carts.RemoveIf | backend/src/main/java/com/example/ecommerce/service/CartService.java:53 | The removal loop keeps exactly the other products' lines, in order |
| Carts.UpdateStoresAnyQuantity | backend/src/main/java/com/example/ecommerce/service/CartService.java:57-66 | Any quantity, zero or negative included, is stored on the product's line |
| Carts.CartService.constructor | backend/src/main/java/com/example/ecommerce/service/CartService.java:12-17 | The service holds its two repositories |
| Carts.CartService.GetOrCreateCart | backend/src/main/java/com/example/ecommerce/service/CartService.java:22-29 | The stored carts become Created; the user's items are returned |
| Carts.CartService.AddToCart | backend/src/main/java/com/example/ecommerce/service/CartService.java:31-49 | An unknown product fails, after the cart was created; otherwise the items merge or append; one line per product is preserved |
| Carts.CartService.RemoveFromCart | backend/src/main/java/com/example/ecommerce/service/CartService.java:51-55 | Every line of the product goes; the rest stay in order |
| Carts.CartService.UpdateCartItemQuantity | backend/src/main/java/com/example/ecommerce/service/CartService.java:57-66 | The line's quantity is set as given; a product without a line fails and changes no items |
| Carts.CartService.ClearCart | backend/src/main/java/com/example/ecommerce/service/CartService.java:68-72 | The cart is left with no items |
| OrderEntity.ItemsTotalAppend | backend/src/main/java/com/example/ecommerce/model/Order.java:83-87 | The item total is additive over concatenation |
| OrderEntity.TotalPrice | backend/src/main/java/com/example/ecommerce/model/Order.java:83-87 | An order with no items totals 0 |
| OrderEntity.TotalExcludesShipping | backend/src/main/java/com/example/ecommerce/model/Order.java:83-87 | The total is the item sum, and the shipping cost and method never enter it |
| OrderEntity.Order.constructor | backend/src/main/java/com/example/ecommerce/model/Order.java:39-43 | A new order is NEW, dated now, costs 0 and has no items |
| OrderEntity.Order.ForUser | backend/src/main/java/com/example/ecommerce/model/Order.java:45-48 | The same defaults, plus the user |
| OrderEntity.Order.GetTotalPrice | backend/src/main/java/com/example/ecommerce/model/Order.java:83-87 | The getter returns the total of the order's state |
| OrderEntity.Order.SetId | backend/src/main/java/com/example/ecommerce/model/Order.java:51 | Only the id changes |
| OrderEntity.Order.SetUser | backend/src/main/java/com/example/ecommerce/model/Order.java:54 | Only the user changes |
| OrderEntity.Order.SetOrderDate | backend/src/main/java/com/example/ecommerce/model/Order.java:57 | Only the date changes |
| OrderEntity.Order.SetStatus | backend/src/main/java/com/example/ecommerce/model/Order.java:60 | Only the status changes |
| OrderEntity.Order.SetOrderItems | backend/src/main/java/com/example/ecommerce/model/Order.java:63 | Only the items change |
| OrderEntity.Order.SetShippingAddress | backend/src/main/java/com/example/ecommerce/model/Order.java:66 | Only the address changes |
| OrderEntity.Order.SetRecipientPhone | backend/src/main/java/com/example/ecommerce/model/Order.java:69 | Only the phone changes |
| OrderEntity.Order.SetRecipientName | backend/src/main/java/com/example/ecommerce/model/Order.java:72 | Only the name changes |
| OrderEntity.Order.SetDeliveryNotes | backend/src/main/java/com/example/ecommerce/model/Order.java:75 | Only the notes change |
| OrderEntity.Order.SetShippingMethod | backend/src/main/java/com/example/ecommerce/model/Order.java:78 | Only the method changes |
| OrderEntity.Order.SetShippingCost | backend/src/main/java/com/example/ecommerce/model/Order.java:81 | Only the cost changes |
| Orders.Tariff | backend/src/main/java/com/example/ecommerce/service/OrderService.java:55-62 | A tariff exists exactly for EXPRESS, STANDARD and PICKUP |
| Orders.TariffAgreesWithPage | backend/src/main/java/com/example/ecommerce/service/OrderService.java:55-62 | The three known methods cost what the cart page shows; for any other method the backend sets no cost while the page shows 250 |
| Orders.ItemsOfTotal | backend/src/main/java/com/example/ecommerce/service/OrderService.java:65-69 | The order's items total what the cart page's subtotal shows |
| Orders.PlacedOrder | backend/src/main/java/com/example/ecommerce/service/OrderService.java:46-69 | The new order is NEW, for the user, dated now, with the cart's items and the cart's total |
| Orders.PlacedCost | backend/src/main/java/com/example/ecommerce/service/OrderService.java:48-63 | 500 for EXPRESS, 250 for STANDARD, 0 for PICKUP; 0 for a missing or unknown method or no delivery info |
| Orders.ReorderCopies | backend/src/main/java/com/example/ecommerce/service/OrderService.java:94-106 | The copy is a NEW order for the user, with address, phone, name, method, cost, items and total copied; the notes are dropped |
| Orders.OrdersBetweenMembers | backend/src/main/java/com/example/ecommerce/service/OrderService.java:129-137 | Exactly the orders dated within the range, each kept once |
| Orders.OrdersBetweenInclusive | backend/src/main/java/com/example/ecommerce/service/OrderService.java:129-137 | For start ≤ end, orders dated on either end are included |
| Orders.OrdersBetweenNewestFirst | backend/src/main/java/com/example/ecommerce/service/OrderService.java:129-137 | The result is in range and sorted newest first |
| Orders.OrderService.constructor | backend/src/main/java/com/example/ecommerce/service/OrderService.java:21-32 | The service holds its three repositories |
| Orders.OrderService.CreateOrder | backend/src/main/java/com/example/ecommerce/service/OrderService.java:40-76 | An empty or missing cart fails and changes nothing; otherwise the placed order is stored under the next id and the cart is emptied |
| Orders.OrderService.SetDelivery | backend/src/main/java/com/example/ecommerce/service/OrderService.java:48-62 | The setters apply the delivery fields and the tariff |
| Orders.OrderService.Save | backend/src/main/java/com/example/ecommerce/service/OrderService.java:70 | A new entity is stored under a fresh id |
| Orders.OrderService.GetOrderById | backend/src/main/java/com/example/ecommerce/service/OrderService.java:78-81 | The stored order, or "not found" |
| Orders.OrderService.UpdateOrderStatus | backend/src/main/java/com/example/ecommerce/service/OrderService.java:83-87 | Any status is stored with no transition check; a missing id fails and changes nothing |
| Orders.OrderService.Reorder | backend/src/main/java/com/example/ecommerce/service/OrderService.java:89-109 | The order is checked before the user; the copy is stored under the next id; the old order and the cart are unchanged |
| Orders.OrderService.DeleteOrder | backend/src/main/java/com/example/ecommerce/service/OrderService.java:119-127 | An unknown id fails; afterwards the order is gone and nothing else changes |
| Accounts.RoleOf | backend/src/main/java/com/example/ecommerce/service/UserService.java:35-40 | The upper-cased name must be a constant's name; otherwise there is no role |
| Accounts.RoleOfName | backend/src/main/java/com/example/ecommerce/service/UserService.java:35-40 | Each constant's name gives its constant, and upper-casing first changes nothing |
| Accounts.RoleNames | backend/src/main/java/com/example/ecommerce/service/UserService.java:35-40 | "role_admin" is accepted, and "ADMIN" is rejected |
| Accounts.SelectorRolesAccepted | backend/src/main/java/com/example/ecommerce/service/UserService.java:35-40 | Every choice of the admin panel's role selector is accepted, including as the role of the change request the panel sends |
| Accounts.UserService.constructor | backend/src/main/java/com/example/ecommerce/service/UserService.java:15-21 | The service holds its two repositories |
| Accounts.UserService.UpdateUserRole | backend/src/main/java/com/example/ecommerce/service/UserService.java:31-50 | Checks in order: an unknown user, then an invalid name, then a missing role row. On success the role set is exactly that one role; no other user and no id changes |
| Accounts.AuthService.constructor | backend/src/main/java/com/example/ecommerce/service/AuthService.java:15-23 | The service holds its repositories and the encoder |
| Accounts.AuthService.RegisterUser | backend/src/main/java/com/example/ecommerce/service/AuthService.java:25-44 | A taken username is refused before the email is checked. A new user gets the encoded password and exactly {ROLE_USER}, and the store grows by one |
| Accounts.DuplicateRefusalShownUnderForm | backend/src/main/java/com/example/ecommerce/service/AuthService.java:26-32 | The two duplicate refusals reach the sign-up page as the general submit error, never on the fields |
| OrderEndpoints.MergedFields | backend/src/main/java/com/example/ecommerce/controller/OrderController.java:130-144 | A present key overwrites its field, even with null; an absent key keeps it; id, owner, date, status, cost and items never change |
| OrderEndpoints.MergedIgnoresOtherKeys | backend/src/main/java/com/example/ecommerce/controller/OrderController.java:130-144 | Unknown keys are ignored, and an empty body changes nothing |
| OrderEndpoints.MergedKeepsCost | backend/src/main/java/com/example/ecommerce/controller/OrderController.java:130-146 | With all five keys the merge is createOrder's delivery step but without a new cost: EXPRESS on a free order stays free |
| OrderEndpoints.OrderController.constructor | backend/src/main/java/com/example/ecommerce/controller/OrderController.java:18-21 | The controller holds its order service |
| OrderEndpoints.OrderController.UpdateOrderStatus | backend/src/main/java/com/example/ecommerce/controller/OrderController.java:82-99 | The raw status is stored; a missing order answers 400 with the service's message |
| OrderEndpoints.OrderController.UpdateDeliveryInfo | backend/src/main/java/com/example/ecommerce/controller/OrderController.java:123-159 | The order is stored merged, with its status and cost kept; a missing order answers 400 and changes nothing |
| Repositories.CartRepository.constructor | backend/src/main/java/com/example/ecommerce/service/CartService.java:13-14 | The carts by user |
| Repositories.ProductRepository.constructor | backend/src/main/java/com/example/ecommerce/service/CartService.java:16-17 | The products by id, each stored under its own id |
| Repositories.OrderRepository.constructor | backend/src/main/java/com/example/ecommerce/service/OrderService.java:22-23 | An empty order store |
| Repositories.UserRepository.constructor | backend/src/main/java/com/example/ecommerce/service/UserService.java:17-18 | An empty user store |
| Repositories.RoleRepository.constructor | backend/src/main/java/com/example/ecommerce/service/UserService.java:20-21 | The stored roles |

Some definitions that model source functions carry no row of their own,
because the lemmas in the rows above state what they mean:
`Session.NormalizeRole` (the role normalisation of AuthContext.js),
`Session.HasRole` and `Session.HasAnyRole` (hasRole and hasAnyRole),
`Session.AfterFetch` and `Session.AfterLogin` (the state changes of
fetchUser and login), `AdminPanel.DisplayRole` (getDisplayRole), and
`AdminPanel.StatusChange` and `AdminPanel.RoleChange` (the requests of
handleUpdateOrderStatus and handleUpdateUserRole).

## Left out

- Network calls (`fetch`, `axios`), `localStorage` writes, `alert`,
  `window.confirm`, timers and navigation side effects: each reply or
  answer is a parameter, and JSX rendering is not modelled.
- Token decoding (`atob` and `JSON.parse`): the decoded payload is an
  abstract record with optional claims, and a payload that fails to parse
  is None.
- JwtUtils.java (signing and parsing through a library),
  ProductService.java (pass-through derived queries) and
  DataInitializer.java (seed data) are not part of this model.
- AdminController.java, CartController.java, ProductController.java and
  AuthController.java are thin envelopes around service calls and are not
  part of this model. The one fact used from AuthController.java is that
  sign-up passes the service's message through as the error of a 400 reply.
- PrivateRoot.js is not part of this model. Its decision (pending, a
  redirect to /login, or the children) is the `privateGate` input of
  `Routing.Render`.
- OrderItem.java, Cart.java, User.java and the repository interfaces are
  not part of this model beyond the fields the services read and write.
- Login.js, Header.js and the ui-tests are presentation and browser
  automation, and are not part of this model.
- getUserOrders, getAllOrders, getTotalOrders, getAllUsers and
  getTotalUsers are plain repository reads, and are not modelled.
- OrderHistory.js handleReorder only posts a request and shows an alert,
  so it is not modelled. `updateUser` in AuthContext.js is not modelled.
- OrderHistory.js and the admin panel's order and user lists are not
  re-sorted by the page; their fetch handlers only store what arrives.
- Prices are integers: JavaScript numbers and BigDecimal arithmetic are
  not modelled, and neither is the `Math.ceil` of the highest price.
- Dates are integer milliseconds: `new Date(...)` parsing and time zones
  are left out.
- Case mapping (`toLowerCase`, `toUpperCase`) covers ASCII letters only.
  `localeCompare` is the `collate` parameter of the catalogue.
- Async interleavings (a later reply overtaking an earlier one) are not
  modelled: every handler runs to completion with its reply.
- The items of an order are a `Set` in Order.java
  (`Collectors.toSet`). The model keeps them as a sequence in cart order,
  so iteration order and the merging of equal items are not modelled.
- Carts.CartService.AddToCart: the cart's item collection is persisted
  through the cart; cascading saves and the separate item rows are not
  modelled.
- Carts.AddMerges and Carts.CartService.AddToCart: quantities are
  unbounded integers, so the 32-bit wrap-around of Java's `int` when
  `getQuantity() + quantity` overflows (CartService.java:42) is not
  modelled.
- CartView.DeliveryErrorsMeaning: JavaScript's `.length` counts UTF-16 code
  units while `|s|` counts characters, so the address (10) and name (2)
  minimums are stated in characters; the two differ only on characters
  outside the Basic Multilingual Plane.
- Registration.ValidateForm: the username (3) and password (8) minimums are
  stated in characters, not UTF-16 code units, for the same reason.
- Registration.CheckPasswordStrength: the 8- and 12-character score steps
  are stated in characters, not UTF-16 code units, for the same reason.
- Accounts.UserService.UpdateUserRole: `roleName` is a string, so the
  null pointer exception of a null name is not modelled.
- OrderEndpoints.OrderController.UpdateDeliveryInfo: the merged fields
  reach the database because the fetched order is the entity the session
  manages when updateOrderStatus saves it again. The model writes the
  merged order into the store directly.
- OrderEndpoints.OrderController.UpdateOrderStatus: the `status` request
  parameter is required by the endpoint, so it is always present and is
  passed on as `Some(status)`.
