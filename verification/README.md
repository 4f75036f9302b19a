# CaffAine core in Dafny

CaffAine is a coffee-shop application. A NestJS backend keeps products, users
and orders. A Next.js frontend shows the menu, a cart with an AI upsell, a
mood-based barista, the customer's order tracker and an admin console. This
project models the parts of it that hold rules and state:

- the order engine, in `orders_service.dfy` with the request shape in
  `order_dto.dfy`. Placing an order walks the request lines, rejects a missing
  product or short stock, decrements stock, snapshots prices and sums the
  total, and fails the final insert for an owner the user table lacks, all
  or nothing. Updates overwrite fields and removals delete.
- the account store (`auth_service.dfy`). It keeps users keyed by email,
  checks passwords exactly, forces the CUSTOMER role on signup and builds the
  mock access token.
- the rule-based barista (`ai_service.dfy`): mood detection, the product
  fallback chain, the upsell rule and the tiny order phrase matcher.
- the admin statistics (`admin_service.dfy`), the upload filter and reply
  (`upload.dfy`), and the image URL helper (`image_url.dfy`).
- the client-side state:
  - the session provider (`auth_context.dfy`);
  - the customer's order tracker (`my_orders_page.dfy`);
  - the admin orders, products and users pages (`admin_orders_page.dfy`,
    `admin_products_page.dfy`, `admin_users_page.dfy`);
  - the menu (`menu_page.dfy`) and the order/cart page (`order_page.dfy`).

Shared modules:
- `wrappers.dfy`: `Option`, `Result`.
- `text.dfy`: ASCII lower-casing, substring search, decimal rendering and
  parsing, zero padding.
- `seqs.dfy`: order-preserving filter, reverse.
- `schema.dfy`: the records and constants used by both sides.

Conventions:
- Prices and totals are integers.
- HTTP replies, storage contents and user choices are parameters of the
  methods that consume them.
- The order store is a class over a product map and an order sequence. The
  transaction loop is the method `OrdersService.Transaction`, proved equal to
  the specification function `OrdersService.Place`.

## Model

| member | source | states |
|---|---|---|
| OrdersService.Transaction | Backend/src/orders/orders.service.ts:14-49 | the loop's outcome is exactly `Place` of the request lines, and on success the accumulated total is the sum of the captured price × quantity |
| OrdersService.OrderStore.constructor | Backend/src/orders/orders.service.ts:7-9 | an empty order table over a catalogue with non-negative stock and a given user table, ids starting at 1 |
| OrdersService.OrderStore.Create | Backend/src/orders/orders.service.ts:11-71 | a failing line gives that first line's error; after every line succeeded, an owner missing from the user table fails the final insert; on any failure products, orders, the id counter and the clock are untouched (rollback); success appends one PENDING order with the next id, the placed items and their total, and installs the decremented stock; an empty item list for an existing or absent owner gives total 0, no items and unchanged stock; the store invariant (stock ≥ 0, increasing ids and creation times, owners that exist) is kept |
| OrdersService.OrderStore.FindAll | Backend/src/orders/orders.service.ts:73-87 | the same orders as the table, strictly newest first |
| OrdersService.OrderStore.FindByUser | Backend/src/orders/orders.service.ts:89-103 | exactly the orders whose userId is the given one, strictly newest first |
| OrdersService.OrderStore.FindOne | Backend/src/orders/orders.service.ts:105-118 | an order with that id from the table, or none iff no order has that id |
| OrdersService.OrderStore.Update | Backend/src/orders/orders.service.ts:120-127 | an unknown id fails with nothing changed, and so does a new owner missing from the user table; otherwise the order in place gets the patch's fields, except items, with no status-transition check, and products are untouched |
| OrdersService.OrderStore.Remove | Backend/src/orders/orders.service.ts:129-133 | an unknown id fails; otherwise exactly that order leaves the table, the rest keep their order, and stock is not restored |
| OrdersService.RemoveKeepsWellFormed | Backend/src/orders/orders.service.ts:129-133 | deleting any one order keeps ids and creation times increasing and below their counters, and keeps every item naming a known product |
| OrdersService.ApplyPatch | Backend/src/orders/orders.service.ts:120-126 | supplied fields are overwritten, absent ones kept, and id, total, items and creation time never change |
| OrdersService.IndexOf | Backend/src/orders/orders.service.ts:107-108 | the position of the order with that id, or -1 iff there is none |
| OrdersService.MissingProductMessage | Backend/src/orders/orders.service.ts:24-26 | the missing-product error reads "Product with ID <id> not found" |
| OrdersService.ShortStockMessage | Backend/src/orders/orders.service.ts:28-32 | the short-stock error reads "Insufficient inventory for product "<name>". Available: <n>, Requested: <q>" |
| OrdersService.Step | Backend/src/orders/orders.service.ts:20-47 | one line succeeds iff its product exists with enough stock; then only that product's inventory changes, dropping by the quantity, and the item carries the product's current price; a missing product gives ProductNotFound for that id, short stock gives InsufficientInventory with the product's name, its stock and the quantity |
| OrdersService.Place | Backend/src/orders/orders.service.ts:19-48 | a successful placement has one item per line and the same set of products |
| OrdersService.PlaceItems | Backend/src/orders/orders.service.ts:19-48 | success yields one item per line, in order, with the line's product id and quantity and the product's price at that moment |
| OrdersService.PlaceStock | Backend/src/orders/orders.service.ts:20-38 | each product's final stock is its starting stock minus the sum of the quantities of all lines naming it, so repeated lines accumulate |
| OrdersService.PlaceKeepsStockNonNegative | Backend/src/orders/orders.service.ts:28-37 | stock that starts non-negative stays non-negative after a successful placement |
| OrdersService.PlaceTotal | Backend/src/orders/orders.service.ts:16-55 | the order total equals the sum over the request lines of the price then current × quantity |
| OrdersService.TotalsAgree | Backend/src/orders/orders.service.ts:40-41 | the captured-item total and the per-line total agree on any successful placement |
| OrdersService.PlaceFailsOnMissingProduct | Backend/src/orders/orders.service.ts:24-26 | a line naming a product not in the table makes the whole placement fail, wherever the line stands |
| OrdersService.PlaceReportsFirstFailure | Backend/src/orders/orders.service.ts:19-33 | when every earlier line fits, the first line that does not fit decides the error: ProductNotFound with its id for a missing product, else InsufficientInventory with the product's name, the stock the earlier lines left and the quantity asked for |
| OrdersService.ShiftFits | Backend/src/orders/orders.service.ts:28 | a line fits against the stock left by earlier lines iff it fits after shifting by the first line |
| OrdersService.PlaceSucceedsIffFeasible | Backend/src/orders/orders.service.ts:19-49 | placement succeeds iff every line's product exists and every line's quantity is within the stock left by the earlier lines |
| OrdersService.NonPositiveQuantityRaisesStock | Backend/src/orders/orders.service.ts:28-37 | a line with quantity ≤ 0 for an existing product passes the check and raises (or keeps) its stock |
| OrdersService.TwoOrdersCompeteForStock | Backend/src/orders/orders.service.ts:28-38 | with a stock of 3, a first order of 2 succeeds and leaves 1, and a second order of 2 then fails with Available 1, Requested 2 |
| OrdersService.PrefixedTwice | Backend/src/orders/orders.service.ts:44-48 | prepending items in two steps equals prepending them at once |
| OrdersService.FilterKeepsCreationOrder | Backend/src/orders/orders.service.ts:90-101 | filtering orders keeps them in increasing creation order |
| OrderDto.ValidateLine | Backend/src/orders/dto/create-order.dto.ts:5-13 | a line is accepted iff productId and quantity are both present integers |
| OrderDto.ValidateLines | Backend/src/orders/dto/create-order.dto.ts:25-28 | the item list is accepted iff every element is, keeping length and order |
| OrderDto.Validate | Backend/src/orders/dto/create-order.dto.ts:15-28 | a body is accepted iff userId is absent or an integer, tableNumber is absent or a string, and items is an array of valid lines; the empty array is accepted |
| OrderDto.ValidateToJson | Backend/src/orders/dto/create-order.dto.ts:15-28 | validating the JSON form of any request gives that request back |
| OrderDto.ItemsMustBeArray | Backend/src/orders/dto/create-order.dto.ts:25-28 | a body without an items array is rejected |
| OrderDto.FractionalQuantityRejected | Backend/src/orders/dto/create-order.dto.ts:10-12 | a quantity of 0.5 is rejected, while a quantity of -3 is accepted as it stands |
| AuthService.AccountStore.constructor | Backend/src/auth/auth.service.ts:5-6 | a store over a user map keyed by email with the next id above every stored one |
| AuthService.AccountStore.ValidateUser | Backend/src/auth/auth.service.ts:8-17 | the password-free user iff one is stored under that email with exactly that password, else none |
| AuthService.AccountStore.Login | Backend/src/auth/auth.service.ts:19-28 | success iff ValidateUser succeeds, with the token "mock_jwt_token_" + role + "_" + id; otherwise InvalidCredentials |
| AuthService.AccountStore.Register | Backend/src/auth/auth.service.ts:30-50 | a taken email fails with nothing changed; otherwise the user is stored with role CUSTOMER whatever was asked and the next id, and the reply equals what Login with the same email and password returns |
| AuthService.FirstIndex | Backend/src/auth/auth.service.ts:26 | the first position of a character, or -1 iff it does not occur |
| AuthService.FirstIndexAfter | Backend/src/auth/auth.service.ts:26 | the first '_' of role + "_" + rest is right after the role when the role has none |
| AuthService.AccessToken | Backend/src/auth/auth.service.ts:26 | the token starts with "mock_jwt_token_", the role and "_", and ends with the decimal id |
| AuthService.ParseAccessToken | Backend/src/auth/auth.service.ts:26 | the role and id can be read back from a token when the role contains no '_' |
| AuthService.AccessTokenIdentifiesUser | Backend/src/auth/auth.service.ts:26 | two such tokens are equal only for the same role and id |
| AiService.FirstMatch | Backend/src/ai/ai.service.ts:73 | the index of the first entry with a keyword in the text, or -1 iff none has one |
| AiService.Detect | Backend/src/ai/ai.service.ts:9-86 | the first mood entry in table order with a keyword in the lower-cased text, or Neutral iff none matches; every entry offers three intros |
| AiService.MoodTableShape | Backend/src/ai/ai.service.ts:9-70 | every mood entry offers three intros and none is named Neutral |
| AiService.DetectIgnoresCase | Backend/src/ai/ai.service.ts:72-73 | detection gives the same mood for a text and its lower-cased form |
| AiService.UnhappyReadsAsHappy | Backend/src/ai/ai.service.ts:9-73 | any text containing "unhappy" is detected as Happy |
| AiService.NotHappy | Backend/src/ai/ai.service.ts:10-21 | every Happy keyword holds one of the letters h, g, x, o, a, p, w, so a text with none of them does not match the Happy entry |
| AiService.NotSad | Backend/src/ai/ai.service.ts:22-33 | every Sad keyword holds one of the letters o, s, u, b, p, g, c, so a text with none of them does not match the Sad entry |
| AiService.TiredText | Backend/src/ai/ai.service.ts:34-45 | "I feel tired" is detected as Tired |
| AiService.NoKeywordIsNeutral | Backend/src/ai/ai.service.ts:75-84 | with no keyword the mood is Neutral and the hint "House Blend Coffee" |
| AiService.FirstNamed | Backend/src/ai/ai.service.ts:88-94 | the index of the first product whose name contains the part, or -1 iff none does |
| AiService.FindFirstNamed | Backend/src/ai/ai.service.ts:88-94 | the first product whose name contains the part, none iff there is none |
| AiService.ChooseProduct | Backend/src/ai/ai.service.ts:88-101 | a product whose name contains the hint if there is one, else one whose name contains "Coffee" if there is one, else some product of the list; none iff the list is empty |
| AiService.BaristaMessage | Backend/src/ai/ai.service.ts:103 | the message opens with the intro, ends with the reason, and is longer than the intro, treatment, product name and reason together |
| AiService.MessageMentions | Backend/src/ai/ai.service.ts:103 | the barista message contains the intro, the treatment, the product's name and the reason |
| AiService.AnalyzeMood | Backend/src/ai/ai.service.ts:8-110 | the detected mood name, the product from the fallback chain, and a message that starts with the chosen intro and contains the treatment, the product name and the reason |
| AiService.Recommend | Backend/src/ai/ai.service.ts:112-115 | the same reply as analysing the mood text itself |
| AiService.Upsell | Backend/src/ai/ai.service.ts:117-142 | "Chocolate Cookie" iff some item's name contains "coffee" in any case or its category is HOT or COLD, else "Bottle of Water"; the product is the first whose name contains the suggestion |
| AiService.UpsellIgnoresNameCase | Backend/src/ai/ai.service.ts:119 | an item named "Iced COFFEE" whose category is neither HOT nor COLD still earns the cookie |
| AiService.NlpOrder | Backend/src/ai/ai.service.ts:145-160 | strong and hot give Double Espresso, else sweet and cold give Iced Caramel Macchiato, else latte gives Latte, else none; quantity is always 1 |
| AiService.NlpOrderIgnoresCase | Backend/src/ai/ai.service.ts:147 | the matcher gives the same answer for a text and its lower-cased form |
| AiService.NlpOrderPriority | Backend/src/ai/ai.service.ts:149-157 | "strong hot latte" gives Double Espresso, not Latte |
| AdminService.CustomerCount | Backend/src/admin/admin.service.ts:9-11 | never more than the number of users |
| AdminService.CustomerCountExtend | Backend/src/admin/admin.service.ts:9-11 | adding a user adds one iff its role is CUSTOMER |
| Schema.LiveTotalDrift | Backend/src/admin/admin.service.ts:25-27 | an order's total at current prices is its total at captured prices plus each item's price change times its quantity |
| Schema.LiveTotalNonNegative | Backend/src/admin/admin.service.ts:25-27 | with no negative current price or quantity the total at current prices is not negative |
| AdminService.Revenue | Backend/src/admin/admin.service.ts:25-30 | with no negative current price or quantity the revenue is not negative |
| AdminService.RevenueAppend | Backend/src/admin/admin.service.ts:25-30 | revenue of concatenated order lists is the sum of their revenues |
| AdminService.RevenueMatchesStoredTotals | Backend/src/admin/admin.service.ts:25-30 | when each stored total is its captured total, revenue equals the sum of stored totals plus the price drift of every item since it was ordered |
| AdminService.RevenueWithoutDrift | Backend/src/admin/admin.service.ts:25-30 | while no price has changed since ordering, revenue equals the sum of stored totals |
| AdminService.RevenueFollowsLivePrice | Backend/src/admin/admin.service.ts:25-30 | an order of two items stored at 500 (total 1000) whose product now costs 600 counts 1200 in revenue |
| AdminService.LowInventoryCount | Backend/src/admin/admin.service.ts:32-39 | never more than the number of products |
| AdminService.LowInventoryCountExtend | Backend/src/admin/admin.service.ts:32-33 | adding a product raises the low-stock count by one exactly when its inventory is below 20, and leaves it unchanged otherwise |
| AdminService.LowInventoryCountBounds | Backend/src/admin/admin.service.ts:32-33 | the count is every product when all are below 20 and 0 when none is |
| AdminService.RecentSales | Backend/src/admin/admin.service.ts:40 | a prefix of the fetched orders of length min(10, count) |
| AdminService.GetStats | Backend/src/admin/admin.service.ts:7-42 | the customer count, the order count, the live-price revenue, the low-stock count, and exactly the first min(10, n) orders as recent sales |
| Upload.ImagePatternIsSuffixTest | Backend/src/admin/upload.controller.ts:19 | the anchored pattern holds iff the name ends with "." and one of the five extensions |
| Upload.FileFilter | Backend/src/admin/upload.controller.ts:18-23 | accepted iff the name ends with .jpg, .jpeg, .png, .gif or .webp; otherwise the error "Only image files are allowed!" |
| Upload.UpperCaseExtensionRejected | Backend/src/admin/upload.controller.ts:19-20 | "photo.JPG" is rejected |
| Upload.InnerExtensionRejected | Backend/src/admin/upload.controller.ts:19 | "x.png.exe" is rejected |
| Upload.WebpAccepted | Backend/src/admin/upload.controller.ts:19 | "cat.webp" is accepted |
| Upload.SizeLimitIsFiveMegabytes | Backend/src/admin/upload.controller.ts:24-26 | the limit admits 5 242 880 bytes and not one more |
| Upload.UploadFile | Backend/src/admin/upload.controller.ts:28-38 | a missing file fails with "File is required"; otherwise the url is "/uploads/" + filename, the filename is echoed back, and it can be read back from the url |
| ImageUrl.GetImageUrl | frontend/src/lib/api.ts:3-7 | "" iff the path is absent or empty; a path starting with "http" is returned unchanged; otherwise API_URL is joined to the path with exactly one "/" |
| ImageUrl.ImageUrlEndsWithPath | frontend/src/lib/api.ts:5-6 | for any non-empty path the result ends with that path |
| ImageUrl.RelativePathUnderApi | frontend/src/lib/api.ts:1-6 | a path not starting with "http" lands under API_URL |
| ImageUrl.ImageUrlIdempotent | frontend/src/lib/api.ts:4-6 | applying the helper to its own result changes nothing |
| AuthContext.ErrorText | frontend/src/context/AuthContext.tsx:48-51 | the server's message when it is present and non-empty, else the fallback |
| AuthContext.AuthProvider.constructor | frontend/src/context/AuthContext.tsx:26-27 | no user, loading, over the given storage |
| AuthContext.AuthProvider.IsAuthenticated | frontend/src/context/AuthContext.tsx:92 | true iff a user is held |
| AuthContext.AuthProvider.IsAdmin | frontend/src/context/AuthContext.tsx:93 | true iff a user is held and their role is ADMIN |
| AuthContext.AuthProvider.Restore | frontend/src/context/AuthContext.tsx:29-39 | a parseable saved user is restored, anything else leaves the user as it was, and loading ends either way |
| AuthContext.AuthProvider.Login | frontend/src/context/AuthContext.tsx:41-63 | a refused reply throws the server message or "Login failed"; admin mode with a non-ADMIN user throws "Access denied…"; both change nothing; otherwise the user is set and stored under caffaine_user with the token under caffaine_token |
| AuthContext.AuthProvider.Signup | frontend/src/context/AuthContext.tsx:65-83 | a refused reply throws the message or "Registration failed" and changes nothing; otherwise the user and token are set and stored |
| AuthContext.AuthProvider.Logout | frontend/src/context/AuthContext.tsx:85-90 | no user, and both storage keys removed with the rest of storage kept |
| AuthContext.ReloadAfterLogin | frontend/src/context/AuthContext.tsx:29-90 | after a successful login a fresh provider over the same storage restores the same user; after logout it restores none |
| MyOrdersPage.StatusIndex | frontend/src/app/orders/page.tsx:25-64 | PENDING, PREPARING, READY, COMPLETED map to 0 to 3 and every other status to -1 |
| MyOrdersPage.CancelledHasNoStage | frontend/src/app/orders/page.tsx:62-64 | CANCELLED has index -1 |
| MyOrdersPage.StageStateAt | frontend/src/app/orders/page.tsx:201-202 | a stage is completed iff it is before the current one and active iff it is the current one |
| MyOrdersPage.StepperShape | frontend/src/app/orders/page.tsx:199-202 | exactly the stages before the index are completed and at most one is active; with index -1 none is either |
| MyOrdersPage.ShowsStepper | frontend/src/app/orders/page.tsx:182-183 | a CANCELLED order hides the stepper, and every status that has a stage shows it |
| MyOrdersPage.ProgressPercent | frontend/src/app/orders/page.tsx:192-194 | 0 for index -1 or PENDING, 100 for COMPLETED, and always between 0 and 100 |
| MyOrdersPage.ProgressMonotonic | frontend/src/app/orders/page.tsx:192-194 | a later stage never shows less progress |
| MyOrdersPage.StatusStyle | frontend/src/app/orders/page.tsx:66-74 | COMPLETED, CANCELLED, READY and PREPARING get styles other than the default, and PENDING and any unknown status get the default |
| MyOrdersPage.MyOrdersPage.constructor | frontend/src/app/orders/page.tsx:33-35 | no orders, loading, nothing expanded, so the spinner shows |
| MyOrdersPage.MyOrdersPage.ShowsSpinner | frontend/src/app/orders/page.tsx:76 | the full-page spinner never hides an order list that has arrived |
| MyOrdersPage.MyOrdersPage.ToggleExpand | frontend/src/app/orders/page.tsx:137 | clicking the expanded order collapses it and clicking another expands only that one |
| MyOrdersPage.MyOrdersPage.FetchOrders | frontend/src/app/orders/page.tsx:39-50 | with no user nothing changes; otherwise a reply replaces the list, loading ends whether or not it arrived, and the spinner is gone |
| AdminOrdersPage.FilterOrders | frontend/src/app/admin/orders/page.tsx:107-111 | exactly the orders whose id string, lower-cased user name or table number contains the query, in list order |
| AdminOrdersPage.EmptySearchKeepsAll | frontend/src/app/admin/orders/page.tsx:107-111 | the empty query keeps every order |
| AdminOrdersPage.SearchById | frontend/src/app/admin/orders/page.tsx:108 | every order is found by its own id string |
| AdminOrdersPage.NotesFor | frontend/src/app/admin/orders/page.tsx:93 | the message if non-empty, else the custom message if non-empty, else no notes |
| AdminOrdersPage.OfferedActions | frontend/src/app/admin/orders/page.tsx:280-351 | nothing for COMPLETED, COMPLETED only from READY, PREPARING and READY from any other status |
| AdminOrdersPage.StatusColor | frontend/src/app/admin/orders/page.tsx:45-51 | the table colour for a known status, PENDING's colour for any other |
| AdminOrdersPage.FindById | frontend/src/app/admin/orders/page.tsx:69 | an order with that id preceded by no other with it (the first), none iff there is none |
| AdminOrdersPage.AdminOrdersPage.constructor | frontend/src/app/admin/orders/page.tsx:54-59 | no orders, loading, empty search, nothing selected or updating, empty custom message |
| AdminOrdersPage.AdminOrdersPage.Select | frontend/src/app/admin/orders/page.tsx:147 | the clicked order becomes the selected one |
| AdminOrdersPage.AdminOrdersPage.FetchOrders | frontend/src/app/admin/orders/page.tsx:61-77 | a reply replaces the list; the selection seen by this run is replaced by the fetched order with its id when one exists; loading ends either way |
| AdminOrdersPage.AdminOrdersPage.PollAsWritten | frontend/src/app/admin/orders/page.tsx:61-83 | a poll from the interval replaces the list but leaves the selected order as it was; the search text, the in-flight update and the custom message are kept |
| AdminOrdersPage.AdminOrdersPage.Poll | frontend/src/app/admin/orders/page.tsx:67-71 | a poll replaces the list and re-syncs the selected order with its fetched copy, keeping the selection when the reply lacks it; the search text, the in-flight update and the custom message are kept |
| AdminOrdersPage.AdminOrdersPage.UpdateStatus | frontend/src/app/admin/orders/page.tsx:85-105 | the PATCH carries the status and NotesFor; only success refetches, re-syncs the open order with its fetched copy and clears the custom message; the search text is kept; the updating marker is cleared in every case |
| AdminOrdersPage.StalePollKeepsOldStatus | frontend/src/app/admin/orders/page.tsx:67-83 | after a poll as written, the list says READY while the open panel still says PENDING |
| AdminOrdersPage.PollShowsNewStatus | frontend/src/app/admin/orders/page.tsx:67-71 | after the corrected poll, list and panel both say READY |
| AdminProductsPage.FilterProducts | frontend/src/app/admin/products/page.tsx:149-152 | exactly the products whose lower-cased name or category contains the lower-cased query, in order |
| AdminProductsPage.EmptyProductSearchKeepsAll | frontend/src/app/admin/products/page.tsx:149-152 | the empty query keeps every product |
| AdminProductsPage.ProductSearchIgnoresQueryCase | frontend/src/app/admin/products/page.tsx:150-151 | a query and its lower-cased form match the same products |
| AdminProductsPage.FormFor | frontend/src/app/admin/products/page.tsx:81-102 | a new item gets empty fields with inventory "100"; an edit pre-fills name and category, price and inventory as decimal strings, and the image or "" |
| AdminProductsPage.Payload | frontend/src/app/admin/products/page.tsx:111-115 | name, category and image pass unchanged; a price or stock text that is some integer's decimal form is sent as that integer |
| AdminProductsPage.UntouchedEditRoundTrip | frontend/src/app/admin/products/page.tsx:84-115 | submitting an untouched edit form sends back the product's own name, price, category and inventory |
| AdminProductsPage.SubmitRequest | frontend/src/app/admin/products/page.tsx:106-115 | PATCH to /products/<id> when editing and POST to /products when creating, with the parsed form as body |
| AdminProductsPage.StockBadgeIsLow | frontend/src/app/admin/products/page.tsx:231 | the badge is low iff stock is below the same threshold of 20 the stats use |
| AdminProductsPage.AdminProductsPage.constructor | frontend/src/app/admin/products/page.tsx:23-36 | no products, loading, modal closed, nothing selected, empty form and search |
| AdminProductsPage.AdminProductsPage.FetchProducts | frontend/src/app/admin/products/page.tsx:44-54 | a reply replaces the list and loading ends either way |
| AdminProductsPage.AdminProductsPage.OpenModal | frontend/src/app/admin/products/page.tsx:81-102 | the modal opens with the given selection and its form |
| AdminProductsPage.AdminProductsPage.ImageUploaded | frontend/src/app/admin/products/page.tsx:56-79 | an OK upload sets only the form's image to the returned url; the list, loading flag, modal, selection and search text are kept |
| AdminProductsPage.AdminProductsPage.Submit | frontend/src/app/admin/products/page.tsx:104-131 | the request is SubmitRequest of the selection and form; only an OK reply closes the modal and refetches; a failed reply keeps the modal, list and loading flag; the selection, form and search text are kept in every case |
| AdminProductsPage.AdminProductsPage.Delete | frontend/src/app/admin/products/page.tsx:133-147 | nothing is sent without confirmation; otherwise DELETE to /products/<id>, and only an OK reply refetches |
| AdminUsersPage.CustomersOnly | frontend/src/app/admin/users/page.tsx:36 | exactly the CUSTOMER users, in order |
| AdminUsersPage.FilterMembers | frontend/src/app/admin/users/page.tsx:57-60 | exactly the users whose lower-cased name or email contains the lower-cased query, in order |
| AdminUsersPage.FoundByEmail | frontend/src/app/admin/users/page.tsx:59 | any query that occurs inside a user's email finds that user, whatever the capitalisation |
| AdminUsersPage.OrderCount | frontend/src/app/admin/users/page.tsx:193 | the length of the order list, or 0 when it is absent |
| AdminUsersPage.DisplayedTotal | frontend/src/app/admin/users/page.tsx:218 | the shown history total is not negative when no current price or quantity is |
| AdminUsersPage.DisplayedTotalMatchesStored | frontend/src/app/admin/users/page.tsx:218 | when the stored total is the captured one, the shown total is the stored total plus the price drift since ordering, and equals it while no price has changed |
| AdminUsersPage.DisplayId | frontend/src/app/admin/users/page.tsx:233 | the decimal id left-padded with "0" to at least 4 characters; longer ids unchanged |
| AdminUsersPage.DisplayIdRoundTrip | frontend/src/app/admin/users/page.tsx:233 | a positive id can be read back from its padded form |
| AdminUsersPage.DisplayIdExample | frontend/src/app/admin/users/page.tsx:233 | 42 shows as "0042" and 12345 as "12345" |
| AdminUsersPage.AdminUsersPage.constructor | frontend/src/app/admin/users/page.tsx:21-25 | no users, loading, no details open |
| AdminUsersPage.AdminUsersPage.FetchUsers | frontend/src/app/admin/users/page.tsx:31-42 | a reply's customers replace the list and loading ends either way; the open details, search text and history spinner are kept |
| AdminUsersPage.AdminUsersPage.FetchUserHistory | frontend/src/app/admin/users/page.tsx:44-55 | a reply becomes the open details and history loading ends either way; the list, loading flag and search text are kept |
| AdminUsersPage.AdminUsersPage.CloseDetails | frontend/src/app/admin/users/page.tsx:182 | the details panel is closed; the list, search text and both loading flags are kept |
| MenuPage.ByCategory | frontend/src/app/menu/page.tsx:49-51 | all products for ALL, else exactly those of the active category in order; always a subsequence |
| MenuPage.SubsequenceOfItself | frontend/src/app/menu/page.tsx:49-50 | the unfiltered list is a subsequence of itself |
| MenuPage.TabsPartitionMenu | frontend/src/app/menu/page.tsx:11-51 | when every category is HOT, COLD or DESSERT, the three tabs together hold as many products as ALL |
| MenuPage.MenuPage.constructor | frontend/src/app/menu/page.tsx:31-33 | no products, category ALL, loading |
| MenuPage.MenuPage.Filtered | frontend/src/app/menu/page.tsx:49-51 | the page's list is ByCategory of its products and category |
| MenuPage.MenuPage.EmptyStateShown | frontend/src/app/menu/page.tsx:194 | "no items" shows only after loading, under ALL only for an empty menu, under a category only when no product has it, and always then |
| MenuPage.MenuPage.Loaded | frontend/src/app/menu/page.tsx:36-47 | a reply replaces the products and loading ends whether or not it arrived |
| MenuPage.MenuPage.SelectCategory | frontend/src/app/menu/page.tsx:89 | the clicked tab becomes the active category |
| MenuPage.MenuPage.ResetFilter | frontend/src/app/menu/page.tsx:207 | the category returns to ALL, so the whole menu shows |
| OrderPage.CartTotal | frontend/src/app/order/page.tsx:51 | the cart total is not negative when no price or quantity is |
| OrderPage.ItemCount | frontend/src/app/order/page.tsx:52 | the item count is at least the number of lines when every line holds at least one |
| OrderPage.CartSumsAppend | frontend/src/app/order/page.tsx:51-52 | the cart total and the item count are additive over concatenated carts |
| OrderPage.Lines | frontend/src/app/order/page.tsx:62 | one line per cart entry, in order, with the entry's id and quantity |
| OrderPage.CheckoutPayload | frontend/src/app/order/page.tsx:60-63 | userId is always 1, no table number, and the cart's lines |
| OrderPage.CheckoutPayloadValidates | frontend/src/app/order/page.tsx:60-63 | the server's request validation accepts every checkout payload |
| OrderPage.ServerTotalIsCartTotal | frontend/src/app/order/page.tsx:51-63 | if the server's prices equal the cart's and placement succeeds, the stored total equals the cart total |
| OrderPage.LinesTotalIsCartTotal | frontend/src/app/order/page.tsx:51-62 | with matching prices, the per-line total of the payload equals the cart total |
| OrderPage.UpsellItems | frontend/src/app/order/page.tsx:43 | one upsell item per cart line with its name and category |
| OrderPage.CheckoutDisabled | frontend/src/app/order/page.tsx:278 | an enabled checkout button means no request is out and the payload has at least one line |
| OrderPage.OrderPage.constructor | frontend/src/app/order/page.tsx:23-27 | no products yet, the given cart, no upsell, not checking out, no success |
| OrderPage.OrderPage.ProductsArrived | frontend/src/app/order/page.tsx:29-34 | a menu reply replaces the product list and a failed fetch keeps it; cart, upsell and both flags are kept |
| OrderPage.OrderPage.AddToCart | frontend/src/app/order/page.tsx:36-49 | the cart is updated; an upsell request carrying the previous cart plus the product is sent iff no upsell is held; products, upsell and both flags are kept |
| OrderPage.OrderPage.UpsellArrived | frontend/src/app/order/page.tsx:46 | the reply becomes the held upsell; cart, products and both flags are kept |
| OrderPage.OrderPage.Checkout | frontend/src/app/order/page.tsx:54-78 | the payload is CheckoutPayload of the cart; success is shown only on an OK reply; the in-progress flag is off afterwards in every case; cart, upsell and products are kept |
| OrderPage.OrderPage.SuccessTimerFired | frontend/src/app/order/page.tsx:67-71 | the cart and upsell are cleared and the success message is hidden, which disables checkout; products and the in-progress flag are kept |

## Left out

- Database and transactions: the Prisma store is an in-memory table. A transaction is one atomic step. Concurrent requests and isolation levels are not modelled.
- Prices and totals are integers. Floating-point rounding, `toFixed` and `toLocaleString` formatting are not modelled.
- `Text.Lower` folds only ASCII A-Z. JavaScript's `toLowerCase` folds all of Unicode.
- Prisma's `contains` is modelled as a case-sensitive substring test. Whether SQLite compares case-insensitively is not modelled.
- `AiService.FindFirstNamed`: Prisma's `findFirst` has no `orderBy`, so which match is first is the database's order. The model takes the product list in the order the table returns it.
- `AiService.AnalyzeMood`: the `Math.random` choice of intro is the parameter `pick`, which must be below 3.
- The upload filename (`Date.now` plus a random suffix and `path.extname`), multer's disk storage and the enforcement of the size limit are not modelled. `Upload.WithinSizeLimit` only states the limit.
- `createdAt`: the store stamps orders with a counter that grows on every create. It stands in for the clock; real timestamps can tie.
- HTTP calls, `setInterval` polling, `setTimeout` delays and thrown network errors are not modelled. Their outcomes are method parameters.
- localStorage JSON: a stored value is either a user record or unparseable text. A parseable value of another shape is not modelled.
- `parseFloat` and `parseInt` are not modelled in full. `AdminProductsPage.Payload` parses with `Text.ParseInt`. That function accepts an optional '-' followed by digits and gives none otherwise. JavaScript would also accept leading whitespace and trailing junk, or give NaN.
- The user table behind the foreign key from orders to users is a set of ids fixed when `OrdersService.OrderStore` is built. Prisma's error text for a foreign-key violation is not modelled; the store returns `UnknownUser`.
- `OrdersService.OrderStore.Update`: when both the id and the new owner are unknown, the model reports the missing record. Which error Prisma raises first is not modelled.
- Backend/src/orders/dto/update-order.dto.ts is not part of this model. `OrdersService.OrderPatch` assumes its fields are optional. Setting a field to null to clear it is not modelled.
- `AuthService.AccountStore.Register`: only email, name and password are stored. Other fields spread from the request body are not modelled.
- frontend/src/context/CartContext.tsx is not part of this model. The cart is a value the order page receives, and `AddToCart` takes the updated cart as a parameter.
- The users and products services are not part of this model. The admin pages take their replies as inputs.
- Rendering, animation, routing guards, the thin login and signup forms, the seed script and the controllers that only delegate are not modelled.
- `AuthService.ParseAccessToken` holds only for roles without '_'. This is enough for ADMIN and CUSTOMER.
- `AdminUsersPage.DisplayIdRoundTrip` holds for ids of at least 1. For 0 the padded form "0000" strips back to "".

## Findings

| source | as written | input that shows it | evidently intended | confidence | as-written member | corrected member |
|---|---|---|---|---|---|---|
| frontend/src/app/admin/orders/page.tsx:67-83 | the interval set up on mount keeps calling the first render's `fetchOrders`, whose `selectedOrder` is always null, so a poll never re-syncs the open order panel | open order 1 while it is PENDING; the kitchen moves it to READY; the next 15-second poll updates the list to READY but the panel keeps showing PENDING | every poll replaces the selected order with its fetched copy, as the comment at line 67 says | not executed | AdminOrdersPage.StalePollKeepsOldStatus | AdminOrdersPage.PollShowsNewStatus |
