# Food-ordering client: a Dafny model of its session, forms, pages and statistics

This project models the logic of a React client for a food-ordering service. The client
talks to a REST backend whose every answer is an envelope `{ statusCode, message?, data? }`.
The model covers:

- the session kept in local storage (a bearer token and a role list), the role predicates,
  logout, the request header and the orders URL;
- the two route guards and the navigation bar's link visibility;
- the form handlers of login, self-registration, administrator registration (with its role
  toggle), the profile editor, the review form and the administrator's menu-item form;
- the page handlers of the menu listing (search filter), the menu item page (quantity
  selector, add to cart, review stars), the cart (replacement from mutation answers), the
  order history (the nested loop that flags reviewed items) and the payment page (query validation);
- the administrator's dashboard statistics (status counts, per-item quantity tally, top five,
  revenue), the payments page (filter, revenue, online count, success rate) and the orders
  page (status filter, item counts, payment-status fallback);
- the route table, only as far as needed to state where two pages navigate.

Every backend call is an input to the handler that awaits it: `Call<T>` is either the
envelope it returned or the failure it threw. A handler returns `Effects`: the message it
passes to the error banner, where it navigates, and whether it sent its request. Page state
(`useState`) is a class whose methods update its fields; pure decisions are functions. Money
is held in integer cents, and `Number()` is read back exactly (`Text.ParseNumber`), so
printing and parsing amounts are proved to round-trip.

Modules follow the source files: `Session` (ApiService), `Guard`, `Navbar`, `Login`,
`Register`, `AdminRegistration`, `MenuPage`, `MenuDetails`, `CartPage`, `OrderHistory`,
`LeaveReview`, `UpdateProfile`, `ProcessPayment`, `Dashboard` (with `Tally` for the counting
record and its sort), `AdminPayments`, `AdminOrders`, `MenuForm` and `Routes`. `Common`,
`Text`, `Seqs` and `Domain` hold the envelope, the string and number conversions, sequence
filtering and summing, and the record shapes.

The administrator's orders page fetches only when it mounts (its effect has no
dependencies), so choosing a status filter there records the choice and changes nothing
else. The model keeps that behaviour as written (`AdminOrders.AdminOrdersPage.SelectFilter`).

Pages are modelled as the code is written. Where the code evidently misses its intent (the
revenue and success-rate cards, the payment filter options and two navigations, listed under
"## Findings"), the intended definition is a separate member beside the as-written one.

## Model

| member | source | states |
|---|---|---|
| Session.SessionStore.SaveToken | src/services/ApiService.ts:8-14 | after saving, `getToken` returns the token; the stored roles are unchanged |
| Session.SessionStore.SaveRole | src/services/ApiService.ts:17-26 | after saving, `getRoles` returns the list; the stored token is unchanged |
| Session.SessionStore.HadRole | src/services/ApiService.ts:29-32 | false with no roles stored, otherwise membership of the role in the stored list |
| Session.SessionStore.IsAdmin | src/services/ApiService.ts:34-36 | holds iff a role list is stored and contains "ADMIN" |
| Session.SessionStore.IsCustomer | src/services/ApiService.ts:38-40 | holds iff a role list is stored and contains "CUSTOMER" |
| Session.SessionStore.IsDeliveryPerson | src/services/ApiService.ts:42-44 | holds iff a role list is stored and contains "DELIVERY" |
| Session.SessionStore.Logout | src/services/ApiService.ts:46-49 | both entries removed; afterwards not authenticated and no role predicate holds; a second logout changes nothing |
| Session.SessionStore.IsAuthenticated | src/services/ApiService.ts:51-54 | holds iff a token is stored and it is non-empty |
| Session.SessionStore.GetHeader | src/services/ApiService.ts:55-61 | authorization is "Bearer " followed by the token, or by "null" when none is stored; content type is JSON |
| Session.OrdersUrl | src/services/ApiService.ts:164-169 | the bare `/orders/all` iff the status is missing or empty; otherwise the query carries status, page and size in that order |
| Session.AllOrdersUrl | src/services/ApiService.ts:164-169 | with the default arguments the query is `&page=0&size=200` |
| Guard.CustomerRoute | src/services/Guard.ts:8-15 | renders iff the stored roles contain "CUSTOMER"; otherwise redirects to /login, replacing, with the current location as `from` |
| Guard.AdminRoute | src/services/Guard.ts:17-24 | renders iff the stored roles contain "ADMIN"; otherwise the same redirect |
| Guard.SignedOutIsRedirected | src/services/Guard.ts:8-24 | with no roles stored both guards redirect to the login page |
| Guard.LogoutClosesRoutes | src/services/Guard.ts:8-24 | after logout from any session both guards redirect |
| Navbar.Links | src/components/common/Navbar.tsx:26-63 | the public links come first, and a link is on the bar iff `Visible` allows it: Login and Register iff signed out; Profile, Orders and Logout iff signed in; Cart, Deliveries and Admin iff signed in with the matching role |
| Navbar.SignedInLinks | src/components/common/Navbar.tsx:29-52 | the signed-in group holds exactly the links `Visible` allows a signed-in user apart from the public ones: Profile, Orders, Logout, and each role link iff its flag holds |
| Navbar.When | src/components/common/Navbar.tsx:37-51 | a conditional link appears iff its flag holds |
| Navbar.SignedOutLinks | src/components/common/Navbar.tsx:5-63 | with an empty session the bar is exactly the public links followed by Login and Register |
| Navbar.HandleLogout | src/components/common/Navbar.tsx:12-17 | the session is cleared only when the dialog is confirmed, and the links computed from the cleared session are then the signed-out ones; a refusal leaves the session unchanged |
| Login.RedirectPath | src/components/auth/LoginPage.tsx:10 | the `from` pathname when present and non-empty, else "/home" |
| Login.WithField | src/components/auth/LoginPage.tsx:16-18 | the named field takes the value and the other field is unchanged |
| Login.LoginError | src/components/auth/LoginPage.tsx:22-25 | an error iff email or password is empty, with the required-fields message |
| Login.LoginPage.constructor | src/components/auth/LoginPage.tsx:10-15 | empty form, redirect path fixed from the location state |
| Login.LoginPage.HandleChange | src/components/auth/LoginPage.tsx:16-18 | the form becomes the form with that field changed |
| Login.LoginPage.HandleSubmit | src/components/auth/LoginPage.tsx:20-41 | sends iff the form is valid; on 200 saves token and role list and navigates, replacing, to the redirect path; a rejection shows the message or "Login failed"; a throw shows the generic message; the session is untouched unless it navigates |
| Register.WithField | src/components/auth/RegisterPage.tsx:20-23 | the named field takes the value and every other field is unchanged |
| Register.RegistrationError | src/components/auth/RegisterPage.tsx:27-42 | "All fields are required" iff some field is empty; "Passwords do not match" iff all are filled and the passwords differ; no error iff all filled and equal |
| Register.Payload | src/components/auth/RegisterPage.tsx:44-50 | copies email, password, name, phone number and address, and leaves the confirmation out |
| Register.RegisterPage.constructor | src/components/auth/RegisterPage.tsx:11-18 | all six fields empty |
| Register.RegisterPage.HandleChange | src/components/auth/RegisterPage.tsx:20-23 | the form becomes the form with that field changed |
| Register.RegisterPage.HandleSubmit | src/components/auth/RegisterPage.tsx:25-70 | sends the payload iff validation passes; on 200 resets the form and goes to /login; a rejection shows the message or its fallback and keeps the form; a throw shows the later-again message |
| AdminRegistration.WithField | src/components/auth/AdminUserRegistration.tsx:30-32 | the named text field changes, the others and the role list are kept |
| AdminRegistration.ToggleRole | src/components/auth/AdminUserRegistration.tsx:34-42 | the toggled role's membership flips and every other role's is unchanged; an absent role is appended at the end; a present role is filtered out, leaving a shorter subsequence |
| AdminRegistration.FilterDropsOne | src/components/auth/AdminUserRegistration.tsx:36-37 | filtering out a role that occurs shortens the list |
| AdminRegistration.ToggleTwice | src/components/auth/AdminUserRegistration.tsx:36-39 | toggling an absent role twice restores the original list |
| AdminRegistration.RegistrationError | src/components/auth/AdminUserRegistration.tsx:47-56 | the fields message iff a text field is empty; the role message iff all are filled and no role is chosen; no error otherwise |
| AdminRegistration.AdminRegistrationPage.constructor | src/components/auth/AdminUserRegistration.tsx:15-22 | empty fields and no roles |
| AdminRegistration.AdminRegistrationPage.HandleChange | src/components/auth/AdminUserRegistration.tsx:30-32 | the form becomes the form with that field changed |
| AdminRegistration.AdminRegistrationPage.HandleRoleChange | src/components/auth/AdminUserRegistration.tsx:34-42 | only the role list changes, to the toggled list |
| AdminRegistration.AdminRegistrationPage.HandleSubmit | src/components/auth/AdminUserRegistration.tsx:44-72 | sends the whole form iff validation passes; on 200 resets it and goes to /admin; a rejection shows the answer's message and keeps the form; a throw shows the caught message |
| MenuPage.QueryFor | src/components/home_menu/MenuPage.tsx:17-24 | the by-category request iff the `category` parameter is present and non-empty; never a search |
| MenuPage.FilteredMenus | src/components/home_menu/MenuPage.tsx:55-57 | a subsequence of the loaded items holding exactly those whose lower-cased name contains the lower-cased term |
| MenuPage.EmptySearchShowsAll | src/components/home_menu/MenuPage.tsx:55-57 | an empty term shows every loaded item |
| MenuPage.ShownIffOccurs | src/components/home_menu/MenuPage.tsx:55-57 | an item is shown iff the lower-cased term occurs at some position of its lower-cased name |
| MenuPage.RejectedMessage | src/components/home_menu/MenuPage.tsx:26-33 | the answer's `data.message` or the fallback; the fallback when there is no error body |
| MenuPage.MenuDetailsPath | src/components/home_menu/MenuPage.tsx:52-54 | "/menu/" followed by text that reads back as the id |
| MenuPage.PriceLabel | src/components/home_menu/MenuPage.tsx:92 | the price with two decimals, reading back as the price, then " EUR" |
| MenuPage.MenuListing.Shown | src/components/home_menu/MenuPage.tsx:55-57 | the grid shows exactly the loaded items matching the current term |
| MenuPage.MenuListing.HandleSearchTermChange | src/components/home_menu/MenuPage.tsx:69 | only the term changes |
| MenuPage.MenuListing.FetchMenus | src/components/home_menu/MenuPage.tsx:13-36 | picks the request from the query; on 200 replaces the items; otherwise keeps them and shows the message or "Failed to fetch menus" |
| MenuPage.MenuListing.HandleSearch | src/components/home_menu/MenuPage.tsx:38-51 | searches for the current term; on 200 replaces the items; otherwise keeps them and shows the message or "Failed to search menus" |
| MenuPage.MenuListing.Receive | src/components/home_menu/MenuPage.tsx:26-33 | the answer handling the two requests share |
| Text.ToLower | src/components/home_menu/MenuPage.tsx:56 | same length, each character lower-cased |
| Text.ContainsIff | src/components/home_menu/MenuPage.tsx:56 | `includes` holds iff the substring occurs at some index |
| Text.Repeat | src/components/home_menu/MenuDetailsPage.tsx:152 | n copies of the character |
| Text.DecimalStringRoundTrip | src/components/home_menu/MenuDetailsPage.tsx:57 | `Text.DecimalString`, a whole number printed with `toString`, reads back through `Number` as itself |
| Text.IntStringRoundTrip | src/components/profile_cart/LeaveReview.tsx:45 | a possibly negative whole number printed with `toString` reads back as itself |
| Text.SignedNumber | src/components/payment/ProcessPaymentPage.tsx:38 | `Number` of "" is 0, of "+" and "-" alone NaN; a sign before a number keeps or negates it |
| Text.FractionOnly | src/components/payment/ProcessPaymentPage.tsx:38 | `Number` reads a leading-dot fraction such as ".25" as its value and "." as NaN |
| Text.CentsRoundTrip | src/components/admin/sidebar/AdminMenuFormPage.tsx:48 | `Text.CentsText`, an amount printed with `toString`, reads back through `Number` as the amount |
| Text.FixedCentsShape | src/components/admin/sidebar/AdminPaymentsPage.tsx:103 | `toFixed(2)` always prints two digits after the point, with a minus sign exactly for a negative amount |
| Text.FixedCentsRoundTrip | src/components/admin/sidebar/AdminPaymentsPage.tsx:103 | `Text.FixedCents`, an amount printed with `toFixed(2)`, reads back through `Number` as the amount |
| MenuDetails.ReviewStars | src/components/home_menu/MenuDetailsPage.tsx:152 | for a rating in 0..10: ten characters, filled exactly at the positions below the rating, empty at the rest |
| MenuDetails.CartRequest | src/components/home_menu/MenuDetailsPage.tsx:55-58 | carries the menu id and the quantity as text that reads back as the quantity |
| MenuDetails.MenuDetailsPage.constructor | src/components/home_menu/MenuDetailsPage.tsx:10-13 | no item, rating 0, quantity 1, no success banner |
| MenuDetails.MenuDetailsPage.DecrementDisabled | src/components/home_menu/MenuDetailsPage.tsx:120-121 | the minus button is disabled exactly at quantity 1 |
| MenuDetails.MenuDetailsPage.IncrementQuantity | src/components/home_menu/MenuDetailsPage.tsx:70-72 | quantity grows by exactly one; nothing else changes |
| MenuDetails.MenuDetailsPage.DecrementQuantity | src/components/home_menu/MenuDetailsPage.tsx:74-76 | quantity drops by one above 1 and stays at 1; it never falls below 1 |
| MenuDetails.MenuDetailsPage.FetchMenu | src/components/home_menu/MenuDetailsPage.tsx:18-42 | no id: the id message and no request; a 200 item answer stores the item and asks for the rating, stored on 200; rejections are silent; a throw shows the fetch message |
| MenuDetails.MenuDetailsPage.HandleAddToCart | src/components/home_menu/MenuDetailsPage.tsx:48-68 | sends iff signed in, with the item id and quantity; signed out shows the login message; 200 raises the banner; a rejection is silent; a throw shows the add message |
| MenuDetails.MenuDetailsPage.ClearCartSuccess | src/components/home_menu/MenuDetailsPage.tsx:61-63 | the banner is lowered and nothing else changes |
| CartPage.CartView.constructor | src/components/profile_cart/CartPage.tsx:8 | the cart starts null |
| CartPage.CartView.Apply | src/components/profile_cart/CartPage.tsx:30-63 | a 200 answer replaces the cart with its data; otherwise the cart is kept |
| CartPage.CartView.HandleIncrement | src/components/profile_cart/CartPage.tsx:30-41 | 200 replaces the cart; a rejection keeps it and shows the increment message; a throw keeps it and shows the caught message |
| CartPage.CartView.HandleDecrement | src/components/profile_cart/CartPage.tsx:43-52 | 200 replaces the cart; a rejection keeps it silently; a throw shows the caught message |
| CartPage.CartView.HandleRemoveItem | src/components/profile_cart/CartPage.tsx:54-63 | 200 replaces the cart; a rejection keeps it silently; a throw shows the caught message |
| CartPage.CartView.FetchCart | src/components/profile_cart/CartPage.tsx:14-26 | 200 replaces the cart; a rejection shows the fetch message; a throw is swallowed |
| CartPage.CartView.HandleCheckout | src/components/profile_cart/CartPage.tsx:65-71 | sends nothing, shows nothing, goes nowhere |
| OrderHistory.ReviewedFor | src/components/profile_cart/OrderHistoryPage.tsx:39-41 | holds iff some review carries an order id equal to `Number(order.id)` |
| OrderHistory.EnhanceItem | src/components/profile_cart/OrderHistoryPage.tsx:31-46 | a throw aborts with its failure; on 200 the item gets its review flag; otherwise the item is kept without one |
| OrderHistory.EnhanceItems | src/components/profile_cart/OrderHistoryPage.tsx:27-47 | completes iff every lookup returns, with exactly one enhanced item per item; an abort carries the failure of a lookup that threw |
| OrderHistory.EnhanceItemsEach | src/components/profile_cart/OrderHistoryPage.tsx:27-47 | a completed item loop keeps the items in order: the k-th enhanced item is the k-th item, with the flag its lookup gave |
| OrderHistory.EnhanceOrders | src/components/profile_cart/OrderHistoryPage.tsx:23-50 | completes iff every lookup returns, one enhanced order per order in order, each keeping its order and carrying its enhanced items |
| OrderHistory.ItemsAbortStays | src/components/profile_cart/OrderHistoryPage.tsx:29-31 | once a prefix of the items aborts, the whole item loop aborts with the same failure |
| OrderHistory.OrdersAbortStays | src/components/profile_cart/OrderHistoryPage.tsx:26-31 | once a prefix of the orders aborts, the whole load aborts with the same failure |
| OrderHistory.NoAnswerNoFlags | src/components/profile_cart/OrderHistoryPage.tsx:43-46 | when no lookup answers 200, every item is kept unchanged without a flag |
| OrderHistory.ShowLeaveReview | src/components/profile_cart/OrderHistoryPage.tsx:123 | shown iff the lower-cased status is "delivered" and the item is not known to be reviewed |
| OrderHistory.LeaveReviewPath | src/components/profile_cart/OrderHistoryPage.tsx:74-76 | "/leave-review?orderId=" followed by the order id, then "&menuId=" followed by text reading back as the menu item's id |
| OrderHistory.LookUpItems | src/components/profile_cart/OrderHistoryPage.tsx:28-45 | the item loop yields exactly what `EnhanceItems` specifies: every item enhanced in order, or the failure of the first lookup that threw |
| OrderHistory.OrderHistoryPage.constructor | src/components/profile_cart/OrderHistoryPage.tsx:12 | no orders |
| OrderHistory.OrderHistoryPage.ShowsEmptyState | src/components/profile_cart/OrderHistoryPage.tsx:79-88 | the empty-state message is shown iff there are no orders |
| OrderHistory.OrderHistoryPage.FetchOrders | src/components/profile_cart/OrderHistoryPage.tsx:14-61 | the outer loop, with `LookUpItems` for each order, stores exactly the enhanced list when every lookup returned; a rejected listing or an aborted load leaves the orders as they were, an abort showing the caught message |
| LeaveReview.ReviewRequestOf | src/components/profile_cart/LeaveReview.tsx:42-47 | missing ids are sent as ""; the rating as text that reads back as the rating; the comment as typed |
| LeaveReview.LeaveReviewPage.constructor | src/components/profile_cart/LeaveReview.tsx:8-17 | the ids from the query, no item, rating 0, empty comment, no success |
| LeaveReview.LeaveReviewPage.StarFilled | src/components/profile_cart/LeaveReview.tsx:77-80 | star n is filled iff n is at most the rating |
| LeaveReview.LeaveReviewPage.SubmitDisabled | src/components/profile_cart/LeaveReview.tsx:120-123 | submit is disabled iff the rating is 0 |
| LeaveReview.LeaveReviewPage.ClickStar | src/components/profile_cart/LeaveReview.tsx:81 | the rating becomes the star; exactly the stars up to it are filled and submit is enabled |
| LeaveReview.LeaveReviewPage.HoverStar | src/components/profile_cart/LeaveReview.tsx:82 | the rating becomes the star only while the page body has the focus |
| LeaveReview.LeaveReviewPage.HandleCommentChange | src/components/profile_cart/LeaveReview.tsx:96 | only the comment changes |
| LeaveReview.LeaveReviewPage.LoadMenu | src/components/profile_cart/LeaveReview.tsx:19-37 | as written, without a menu id: the message, no request, and a navigation to "/profile/my-orders-history", which the route table resolves to the home redirect; with one: 200 stores the item, a throw shows the caught message |
| LeaveReview.LeaveReviewPage.LoadMenuAsIntended | src/components/profile_cart/LeaveReview.tsx:19-37 | as intended, without a menu id the navigation reaches the order history at "/my-order-history"; otherwise as `LoadMenu` |
| LeaveReview.LeaveReviewPage.HandleSubmit | src/components/profile_cart/LeaveReview.tsx:39-58 | sends the request built from the query and form; 200 sets the success flag; a throw shows the caught message |
| LeaveReview.LeaveReviewPage.AfterSuccess | src/components/profile_cart/LeaveReview.tsx:51-53 | goes back one history entry |
| UpdateProfile.MultipartHeader | src/services/ApiService.ts:84-88 | the session's authorization with a multipart content type |
| UpdateProfile.UpdateProfilePage.constructor | src/components/profile_cart/UpdateProfilePage.tsx:9-16 | empty fields, no picture, no preview |
| UpdateProfile.UpdateProfilePage.ProfileFormData | src/components/profile_cart/UpdateProfilePage.tsx:76-84 | keys name, email, phoneNumber, address in that order, then imageFile iff a picture was chosen; each key reads back its field |
| UpdateProfile.UpdateProfilePage.FetchUserProfile | src/components/profile_cart/UpdateProfilePage.tsx:24-46 | 200 fills the four fields and the preview; otherwise they are kept; a throw shows the caught message |
| UpdateProfile.UpdateProfilePage.HandleImageChange | src/components/profile_cart/UpdateProfilePage.tsx:49-59 | no file changes nothing; otherwise the first file becomes the picture and the preview its URL |
| UpdateProfile.UpdateProfilePage.HandleUpdateProfile | src/components/profile_cart/UpdateProfilePage.tsx:68-95 | sends the form data iff confirmed; 200 goes to /profile; a throw shows the caught message |
| UpdateProfile.UpdateProfilePage.HandleDeactivateProfile | src/components/profile_cart/UpdateProfilePage.tsx:98-116 | sends iff confirmed; 200 clears the session and goes to /home; on every other path the session is kept |
| ProcessPayment.CheckPaymentParams | src/components/payment/ProcessPaymentPage.tsx:29-46 | "Invalid payment details" iff a parameter is missing or empty; "Invalid amount specified" iff both are present and `Number` of the amount is NaN; otherwise the order id and the amount's value (so ".5" and "5." are accepted) |
| ProcessPayment.CentsAmountAccepted | src/components/payment/ProcessPaymentPage.tsx:38-46 | an amount printed from cents is accepted with that value |
| ProcessPayment.LeadingDotAmountAccepted | src/components/payment/ProcessPaymentPage.tsx:38-46 | an amount written ".5" passes the NaN test and is accepted as 0.5 |
| ProcessPayment.ProcessPaymentPage.constructor | src/components/payment/ProcessPaymentPage.tsx:10-18 | details ('', 0) and payment not completed |
| ProcessPayment.ProcessPaymentPage.ApplySearchParams | src/components/payment/ProcessPaymentPage.tsx:29-50 | accepted parameters replace the details; a rejection keeps them and shows its message |
| ProcessPayment.ProcessPaymentPage.ShowsSuccessView | src/components/payment/ProcessPaymentPage.tsx:52-60 | the success view is shown iff the payment completed |
| ProcessPayment.ProcessPaymentPage.HandlePaymentSuccess | src/components/payment/ProcessPaymentPage.tsx:20-27 | the success view is shown and the details are kept |
| ProcessPayment.ProcessPaymentPage.AfterPaymentSuccess | src/components/payment/ProcessPaymentPage.tsx:22-24 | as written, navigates to "/my-orders-history", which the route table resolves to the home redirect |
| ProcessPayment.ProcessPaymentPage.AfterPaymentSuccessAsIntended | src/components/payment/ProcessPaymentPage.tsx:22-24 | as intended, navigates to "/my-order-history", which reaches the order history |
| Routes.Resolve | src/App.tsx:25-39 | the order history is shown iff the path is the declared one; `/menu/:id` matches iff one segment follows, which becomes the id |
| Routes.CustomerOnly | src/App.tsx:32-38 | the guarded screens are profile, update, order history and review |
| Routes.OrderHistoryReachable | src/App.tsx:37 | the declared path reaches the order history behind the customer guard |
| Routes.ReviewFallbackMissesHistory | src/components/profile_cart/LeaveReview.tsx:35 | the review page's fallback path falls to the catch-all and lands on /home |
| Routes.PaymentDoneMissesHistory | src/components/payment/ProcessPaymentPage.tsx:23 | the payment page's path falls to the catch-all and lands on /home |
| Tally.BumpFacts | src/components/admin/sidebar/AdminDashBoardPage.tsx:76-77 | of `Tally.Bump`: the key's count grows by the amount, every other key's count is unchanged, a new key is appended last, the total grows by the amount |
| Tally.LookupAbsent | src/components/admin/sidebar/AdminDashBoardPage.tsx:68 | an unrecorded key reads as 0 |
| Tally.BumpKeepsDistinct | src/components/admin/sidebar/AdminDashBoardPage.tsx:67-70 | bumping keeps every key recorded once |
| Tally.InsertDesc | src/components/admin/sidebar/AdminDashBoardPage.tsx:82 | inserting adds exactly the entry |
| Tally.InsertDescSorted | src/components/admin/sidebar/AdminDashBoardPage.tsx:82 | inserting into a descending list keeps it descending |
| Tally.SortDesc | src/components/admin/sidebar/AdminDashBoardPage.tsx:81-82 | a permutation of the entries, counts non-increasing |
| Tally.TopFive | src/components/admin/sidebar/AdminDashBoardPage.tsx:81-83 | min(5, n) entries drawn from the record, non-increasing, and no omitted entry outranks a kept one |
| Tally.TopFiveSplit | src/components/admin/sidebar/AdminDashBoardPage.tsx:83 | a prefix of a descending list outranks the rest |
| Dashboard.StatusCounts | src/components/admin/sidebar/AdminDashBoardPage.tsx:67-70 | each status once, counted as the number of orders in it; a key iff some order has that status; the counts add up to the number of orders |
| Dashboard.AllItems | src/components/admin/sidebar/AdminDashBoardPage.tsx:74-75 | exactly the items of the orders |
| Dashboard.ItemTallyCounts | src/components/admin/sidebar/AdminDashBoardPage.tsx:72-79 | of `Dashboard.ItemTally`: each name once, with the sum of the quantities ordered under it; the counts add up to all quantities |
| Dashboard.ComputeItemCounts | src/components/admin/sidebar/AdminDashBoardPage.tsx:72-79 | the nested loops produce the tally of every item of every order |
| Dashboard.TallyItems | src/components/admin/sidebar/AdminDashBoardPage.tsx:75-78 | the inner loop turns the tally of the items before an order into the tally of those items followed by the order's own |
| Dashboard.PopularItems | src/components/admin/sidebar/AdminDashBoardPage.tsx:81-83 | at most five tallies, largest first, none omitted outranking one kept |
| Dashboard.RecentOrders | src/components/admin/sidebar/AdminDashBoardPage.tsx:64 | the first min(5, n) orders in their order |
| Dashboard.RevenueIn | src/components/admin/sidebar/AdminDashBoardPage.tsx:86-92 | NaN iff a counted payment has no amount; otherwise the sum of the counted amounts |
| Dashboard.RevenueAsWritten | src/components/admin/sidebar/AdminDashBoardPage.tsx:86-92 | as written: NaN iff a payment without status has no amount; otherwise the sum over the payments without status |
| Dashboard.Revenue | src/components/admin/sidebar/AdminDashBoardPage.tsx:86-92 | as intended: NaN iff a payment in status SUCCESS has no amount; otherwise the sum over the SUCCESS payments |
| Dashboard.NoSuccessNoRevenue | src/components/admin/sidebar/AdminDashBoardPage.tsx:86-92 | with no SUCCESS payment the intended revenue is 0 |
| Dashboard.SuccessfulPaymentNotCounted | src/components/admin/sidebar/AdminDashBoardPage.tsx:88 | one SUCCESS payment of 25.00 gives 0 as written and 25.00 as intended |
| Dashboard.StatuslessPaymentSpoilsTotal | src/components/admin/sidebar/AdminDashBoardPage.tsx:89 | as written, a payment without status and amount makes the total NaN |
| Dashboard.RevenueText | src/components/admin/sidebar/AdminDashBoardPage.tsx:184 | "$" followed by the amount with two decimals, or "$NaN" |
| Dashboard.StatsOf | src/components/admin/sidebar/AdminDashBoardPage.tsx:56-112 | order and menu counts, active customers or 0, recent orders, status counts, popular items (through `Dashboard.ItemTally`, stated by `Dashboard.ItemTallyCounts`) and the revenue as written, each as above |
| Dashboard.ViewOrderPath | src/components/admin/sidebar/AdminDashBoardPage.tsx:127-129 | "/admin/orders/" followed by the id |
| Dashboard.AdminDashboard.constructor | src/components/admin/sidebar/AdminDashBoardPage.tsx:27-36 | all figures 0 and all lists empty |
| Dashboard.AdminDashboard.FetchDashboardData | src/components/admin/sidebar/AdminDashBoardPage.tsx:41-121 | the first throw ends the load with its message and keeps the stats; the stats change, to the computed ones with the revenue as written, only when orders, menus and payments all answer 200 |
| AdminPayments.PaymentsRevenue | src/components/admin/sidebar/AdminPaymentsPage.tsx:103 | the sum of the amounts of the payments in the status, a missing amount adding 0; non-negative for non-negative amounts |
| AdminPayments.RevenueIsFilteredSum | src/components/admin/sidebar/AdminPaymentsPage.tsx:103 | summing with a conditional equals summing the filtered list |
| AdminPayments.RevenueAsWritten | src/components/admin/sidebar/AdminPaymentsPage.tsx:103 | as written: the sum over the payments without status |
| AdminPayments.Revenue | src/components/admin/sidebar/AdminPaymentsPage.tsx:103 | as intended: the sum over the SUCCESS payments |
| AdminPayments.RevenueMissesSuccessful | src/components/admin/sidebar/AdminPaymentsPage.tsx:103 | one SUCCESS payment of 40.00 gives 0 as written and 40.00 as intended |
| AdminPayments.RenderedRevenueIsZero | src/components/admin/sidebar/AdminPaymentsPage.tsx:103 | as written, whenever every listed payment has a status (a row without one throws while rendering) the card shows 0 |
| AdminPayments.RevenueText | src/components/admin/sidebar/AdminPaymentsPage.tsx:103 | "€" followed by text reading back as the revenue as written |
| AdminPayments.OnlineCount | src/components/admin/sidebar/AdminPaymentsPage.tsx:110 | the number of payments `Online` keeps (gateway other than 'CASH'); at most the list length, equal iff all are online |
| AdminPayments.OnlineCountFacts | src/components/admin/sidebar/AdminPaymentsPage.tsx:110 | the filtered list is no longer than the list, and as long iff every payment passes |
| AdminPayments.OnlineShorter | src/components/admin/sidebar/AdminPaymentsPage.tsx:110 | one cash payment makes the online list shorter |
| AdminPayments.RoundedPercent | src/components/admin/sidebar/AdminPaymentsPage.tsx:118 | the nearest whole percentage, a half rounding up; at most 100 when the part is at most the whole |
| AdminPayments.RoundingBounds | src/components/admin/sidebar/AdminPaymentsPage.tsx:118 | the quotient brackets the exact percentage and is at most 100 |
| AdminPayments.StatusCount | src/components/admin/sidebar/AdminPaymentsPage.tsx:118 | the number of listed payments in the status, at most the list length |
| AdminPayments.SuccessRateText | src/components/admin/sidebar/AdminPaymentsPage.tsx:117-119 | "0%" for no payments; otherwise the rounded share of payments in the counted status (the page counts 'COMPLETED'), at most 100, followed by "%" |
| AdminPayments.SuccessRateMissesSuccessful | src/components/admin/sidebar/AdminPaymentsPage.tsx:118 | one SUCCESS payment: the card reads "0%" counting 'COMPLETED' and "100%" counting SUCCESS |
| AdminPayments.FilterValueAsWritten | src/components/admin/sidebar/AdminPaymentsPage.tsx:50-54 | as written, only the Pending and Failed options set a value that is a payment status |
| AdminPayments.ShownAsWritten | src/components/admin/sidebar/AdminPaymentsPage.tsx:21-25 | an undefined filter keeps everything; any other keeps exactly the payments in that status |
| AdminPayments.ChoosingAllShowsNothing | src/components/admin/sidebar/AdminPaymentsPage.tsx:50-54 | as written, choosing "All Payments" hides a pending payment and choosing "Completed" hides a SUCCESS one |
| AdminPayments.FilterValue | src/components/admin/sidebar/AdminPaymentsPage.tsx:50-54 | as intended, "ALL" iff the all option |
| AdminPayments.ChoiceOf | src/components/admin/sidebar/AdminPaymentsPage.tsx:50-54 | a recognised value belongs to the option that sets it |
| AdminPayments.ChoiceRoundTrip | src/components/admin/sidebar/AdminPaymentsPage.tsx:50-54 | every option's value leads back to the option |
| AdminPayments.Shown | src/components/admin/sidebar/AdminPaymentsPage.tsx:21-24 | "ALL" keeps the list; a status keeps exactly the payments in it; always a subsequence |
| AdminPayments.ViewPaymentPath | src/components/admin/sidebar/AdminPaymentsPage.tsx:40-42 | "/admin/payments/" followed by text reading back as the id, or "undefined" without one |
| AdminPayments.AdminPaymentsPage.constructor | src/components/admin/sidebar/AdminPaymentsPage.tsx:11-12 | no payments, filter undefined (`PaymentStatus.ALL` does not exist) |
| AdminPayments.AdminPaymentsPage.FetchPayments | src/components/admin/sidebar/AdminPaymentsPage.tsx:16-34 | 200 replaces the list with what the filter as written keeps, everything while the filter is undefined; a rejection keeps it; a throw keeps it and shows the caught message |
| AdminPayments.AdminPaymentsPage.SelectFilter | src/components/admin/sidebar/AdminPaymentsPage.tsx:36-38 | sets the filter to the option's value as written and fetches again; after "All Payments" or "Completed" every listed payment has a status outside the enum |
| AdminOrders.StatusParam | src/components/admin/sidebar/AdminOrdersPage.tsx:18 | null iff the filter is "all", the filter itself otherwise |
| AdminOrders.RequestUrl | src/components/admin/sidebar/AdminOrdersPage.tsx:18 | the bare listing for "all"; the status query for any other non-empty filter |
| AdminOrders.ItemCount | src/components/admin/sidebar/AdminOrdersPage.tsx:75 | 0 for no items; the total the dashboard's tally gives for the order's items; non-negative for non-negative quantities |
| AdminOrders.NonNegativeQuantities | src/components/admin/sidebar/AdminOrdersPage.tsx:75 | non-negative quantities sum to a non-negative count |
| AdminOrders.ItemCountsAgree | src/components/admin/sidebar/AdminOrdersPage.tsx:75 | the items columns add up to the total of the dashboard's item tally |
| AdminOrders.QuantitiesOfAll | src/components/admin/sidebar/AdminOrdersPage.tsx:75 | the items columns add up to the quantities of all items |
| AdminOrders.PaymentStatusLabel | src/components/admin/sidebar/AdminOrdersPage.tsx:84 | the payment status, or "PENDING" when it is missing or empty |
| AdminOrders.AdminOrdersPage.constructor | src/components/admin/sidebar/AdminOrdersPage.tsx:11-13 | no orders, filter "all" |
| AdminOrders.AdminOrdersPage.FetchOrders | src/components/admin/sidebar/AdminOrdersPage.tsx:16-30 | requests the filter's URL; 200 replaces the orders with the page content; a throw keeps them and shows the caught message |
| AdminOrders.AdminOrdersPage.SelectFilter | src/components/admin/sidebar/AdminOrdersPage.tsx:45 | the filter changes and the orders stay as they are |
| MenuForm.InitialState | src/components/admin/sidebar/AdminMenuFormPage.tsx:24-31 | an id iff the route names one; every text field empty; no picture |
| MenuForm.WithField | src/components/admin/sidebar/AdminMenuFormPage.tsx:114-117 | the named field takes the value, every other field is unchanged |
| MenuForm.FormStateOf | src/components/admin/sidebar/AdminMenuFormPage.tsx:44-52 | name and description copied; price and category as text that reads back as them; "" iff no category; no chosen picture; the current picture kept |
| MenuForm.CategoryText | src/components/admin/sidebar/AdminMenuFormPage.tsx:49 | "" iff there is no category; otherwise text that reads back as the category id |
| MenuForm.Appended | src/components/admin/sidebar/AdminMenuFormPage.tsx:80-85 | only candidate keys are appended, at most one entry per candidate |
| MenuForm.FirstValueAt | src/components/admin/sidebar/AdminMenuFormPage.tsx:80-89 | with distinct keys a key's value is its own candidate's |
| MenuForm.NoLaterValue | src/components/admin/sidebar/AdminMenuFormPage.tsx:80-89 | a key no candidate has reads as absent |
| MenuForm.GetAppended | src/components/admin/sidebar/AdminMenuFormPage.tsx:80-89 | reading the appended form gives the first candidate value for the key |
| MenuForm.AppendedInOrder | src/components/admin/sidebar/AdminMenuFormPage.tsx:80-89 | the form keeps the candidates' order |
| MenuForm.AppendedStep | src/components/admin/sidebar/AdminMenuFormPage.tsx:80-85 | one more candidate adds its entry at the end, if it has a value |
| MenuForm.Candidates | src/components/admin/sidebar/AdminMenuFormPage.tsx:80-89 | the keys name, description, price, imageFile, categoryId, id in that order |
| MenuForm.MenuFormData | src/components/admin/sidebar/AdminMenuFormPage.tsx:80-89 | keys in that order; each text field present iff non-empty, the picture iff chosen, the id iff editing |
| MenuForm.LoadedFormResends | src/components/admin/sidebar/AdminMenuFormPage.tsx:44-89 | submitting a loaded item unchanged sends a price reading back as the item's and its name when non-empty, and no picture |
| MenuForm.AdminMenuFormPage.constructor | src/components/admin/sidebar/AdminMenuFormPage.tsx:24-34 | the initial form, not submitting |
| MenuForm.AdminMenuFormPage.HandleInputChange | src/components/admin/sidebar/AdminMenuFormPage.tsx:114-117 | the form becomes the form with that field changed |
| MenuForm.AdminMenuFormPage.HandleFileChange | src/components/admin/sidebar/AdminMenuFormPage.tsx:119-122 | the picture becomes the first chosen file, or none |
| MenuForm.AdminMenuFormPage.FetchMenu | src/components/admin/sidebar/AdminMenuFormPage.tsx:36-60 | nothing unless editing; 200 loads the converted item; a rejection shows its message; a throw shows the caught message |
| MenuForm.AdminMenuFormPage.StartSubmit | src/components/admin/sidebar/AdminMenuFormPage.tsx:75-93 | submitting is set; the loop appends exactly the form data; update when editing, create otherwise |
| MenuForm.AdminMenuFormPage.FinishSubmit | src/components/admin/sidebar/AdminMenuFormPage.tsx:94-104 | submitting is cleared on every path; navigates to the menu list iff the answer is 200 |

## Left out

- Network I/O, the base URL and axios: each backend call is an input to the handler that awaits it.
- Backend methods the pages call but the service file does not define (`getAllPayments`, `getCart`, `decrementItem`, `removeItem`, `createReview`, `createMenu`, `updateMenu`) are answers passed in like the others.
- A 200 answer is required to carry `data` (`Common.WellFormed`, `MenuPage.MenusReply`, `OrderHistory.Lookups`) on the handlers that read it. A 200 without data is not modelled. The code reacts in two ways:
  - the dashboard, admin orders, menu form, profile form and order history handlers, and the payments page once a filter is set, read a field of the missing data inside their `try`; the TypeError is caught and its message shown through the error banner;
  - the menu list, the menu rating and the payments page with an undefined filter store the missing value, and rendering then throws (`.filter`, `toFixed`, `.map`) outside any handler.
- Timers: the delayed banner reset, the delayed back navigation and the delayed redirect after payment are separate methods (`ClearCartSuccess`, `AfterSuccess`, `AfterPaymentSuccess`) called when the timer fires; the delays themselves are not modelled.
- Dates: `new Date(...)`, the monthly revenue buckets of the dashboard and every `toLocaleDateString` are left out.
- Floating point: money is integer cents and `Math.round` works on exact fractions; float rounding is not modelled.
- `Text.ParseNumber`: `Number()` is modelled for "" (0) and for plain decimal notation with an optional sign, digits on either side of an optional point ("5", "5.", ".5"); surrounding whitespace (trimmed by `Number`), exponents, hexadecimal, binary and octal prefixes and `Infinity` are read as NaN here.
- `JSON.stringify`/`JSON.parse` of the role list are treated as an exact round trip.
- `toLowerCase` is ASCII-only.
- Rendering, CSS classes and the chart configuration are left out; navigations are recorded by their target only.
- `Tally.SortDesc`: the sort is proved to be a non-increasing permutation; which of two entries with equal counts comes first is not stated.
- `Object.entries` lists integer-like keys before the others; the tally keeps every key in insertion order.
- The error banner hook is not part of this model; a missing message passed to it is recorded as "".
- Crashes while rendering (for example a payment without a status on the payments page) are not modelled.
- `Navbar.HandleLogout` models the session only: `handleLogout` neither navigates nor updates component state, so the rendered bar keeps its signed-in links until something else re-renders it.
- `Routes.Resolve` matches a path exactly and case-sensitively; react-router also accepts a trailing slash and matches letters case-insensitively.
- An absent payment field is modelled; a JSON `null` in its place, which sums as 0 and is not `undefined`, is not.
- The cart page never calls `fetchCart` and its checkout is empty; no cart re-fetch after a mutation exists. The model keeps it so.
- The Stripe payment form and its empty submit handler are not part of this model.
- The category list fetched by the menu form is not modelled; it only feeds a select box.
- `MenuForm.FormStateOf`: the fetched id is held as its decimal text rather than the number the code stores; the form only ever sends it as text.
- Overlapping requests and answers arriving after navigation (async interleaving) are not modelled.
- Fetch-and-render pages, the admin layout, the footer and the error banner component are not part of this model.

## Findings

| source | as written | input that shows it | evidently intended | confidence | as-written member | corrected member |
|---|---|---|---|---|---|---|
| src/components/admin/sidebar/AdminDashBoardPage.tsx:86-92 | compares with `PaymentStatus.COMPLETED`, which the enum does not define, so only payments without a status are counted | one payment of 25.00 in status SUCCESS: revenue 0.00 | the sum over SUCCESS payments, the status the enum in src/types/payment.ts:6-12 (declared to match the backend) gives a paid payment | medium, not executed | Dashboard.SuccessfulPaymentNotCounted | Dashboard.Revenue |
| src/components/admin/sidebar/AdminPaymentsPage.tsx:103 | the same undefined comparison in the revenue card; since a row without a status throws while rendering, the card shows 0.00 whenever the page renders (`AdminPayments.RenderedRevenueIsZero`) | one SUCCESS payment of 40.00: revenue €0.00 | €40.00, the SUCCESS payments | medium, not executed | AdminPayments.RevenueMissesSuccessful | AdminPayments.Revenue |
| src/components/admin/sidebar/AdminPaymentsPage.tsx:118 | counts payments in the literal status 'COMPLETED', which the enum does not have | one SUCCESS payment: success rate 0% | the share of SUCCESS payments, 100% | medium, not executed | AdminPayments.SuccessRateMissesSuccessful | AdminPayments.SuccessRateText |
| src/components/admin/sidebar/AdminPaymentsPage.tsx:50-54 | the "All Payments" and "Completed" options have undefined values, so choosing them filters by the texts "All Payments" and "Completed" | choose "All Payments" with one pending payment: the list is empty | "All Payments" lists everything and "Completed" lists the SUCCESS payments | medium, not executed | AdminPayments.ChoosingAllShowsNothing | AdminPayments.Shown |
| src/components/profile_cart/LeaveReview.tsx:35 | navigates to "/profile/my-orders-history", which no route declares, so the catch-all sends the visitor home | open the review page without a menuId | the order history at "/my-order-history" | high, not executed | Routes.ReviewFallbackMissesHistory | LeaveReview.LeaveReviewPage.LoadMenuAsIntended |
| src/components/payment/ProcessPaymentPage.tsx:23 | navigates to "/my-orders-history", which no route declares, so the catch-all sends the visitor home | complete a payment and wait for the timer | the order history at "/my-order-history" | high, not executed | Routes.PaymentDoneMissesHistory | ProcessPayment.ProcessPaymentPage.AfterPaymentSuccessAsIntended |
