# Admin dashboard logic, modelled in Dafny

This project models the client-side logic of an e-commerce admin dashboard. The dashboard is a Next.js application. It talks to a REST backend, keeps page state in React components, and stores a bearer token in a cookie, the auth flag's token in local storage and the permission matrix in local storage. The model covers the parts of the components that make decisions:

- the permission-matrix editor of the roles page: load-or-seed from storage, toggle one permission, reset to defaults;
- the fetch handlers of the customer list, the customer details page and the dashboard overview: which of `loading`, `error`, the data and the current page each one sets, on success and on every kind of failure;
- the pagination label, the page buttons and the previous/next arrows;
- the row selection of the orders table, and the tag and image lists of the add-product form;
- how the admin-delete modal classifies a reply, which toast it shows and which callbacks it runs;
- the customer-statistics chart (month names, rows, y-axis bound, series);
- the auth context, the route guard and the sidebar's active-item rule.

Every network reply is an input to the model (`Replies.Reply`):

- a rejected `fetch`, or
- a status code with a body that is either unparsable text or a JSON object with optional `error` and `message` fields and the endpoint's payload.

Cookies and local storage are maps from keys to strings. React state setters are modelled as assignments to the fields of one class per component. An event handler or effect runs as one atomic method. Each page class keeps a log of the requests it sent, so "no request is made" is a statement about that log.

JavaScript's `x || fallback` on a string field treats an absent field and the empty string alike; `Replies.OrElse` and `Replies.Truthy` model that. The same goes for the token: a missing cookie and an empty one both count as "no token". The auth context's mount check follows the code (`!!token`), so an empty stored token counts as not authenticated. This is narrower than "a token exists".

## Model

| member | source | states |
|---|---|---|
| Replies.DecimalRoundTrip | src/app/dashboard/page.tsx:125 | reading the decimal text of a status code back gives the status, so the printed status is unambiguous |
| Replies.Token | src/app/dashboard/customers/page.tsx:28-29 | a token exactly when the cookie is present and non-empty, and then it is the cookie's value |
| Lists.Filter | src/app/dashboard/products/add/page.tsx:33 | the result holds only accepted elements, each accepted element as often as in the input, and is no longer than the input |
| Lists.FilterAppend | src/components/ui/orders-table.tsx:126 | filtering commutes with concatenation, so kept elements keep their relative order |
| Lists.FilterKeepsAll | src/app/dashboard/products/add/page.tsx:159 | a filter that accepts every element returns the list unchanged |
| Lists.FilterNoDuplicates | src/components/ui/orders-table.tsx:126 | filtering a list without repetitions yields a list without repetitions |
| Pagination.Showing | src/app/dashboard/customers/page.tsx:181-182 | the label's end never exceeds the total, the span is at most one page, and it is a full page unless it reaches the total |
| Pagination.Label | src/app/dashboard/customers/details/page.tsx:389-391 | a page object's label ends at or before the total and spans at most one page |
| Pagination.ConsistentPageIsNonEmpty | src/app/dashboard/customers/details/page.tsx:389-391 | with total_pages = ceil(total/per_page) and a current page among them, the label is a non-empty range |
| Pagination.PagesTileItems | src/app/dashboard/customers/page.tsx:181-188 | every item 1..total lies in the label of exactly one page, and that page is one of the buttons 1..ceil(total/per_page) |
| Pagination.PageButtons | src/components/ui/orders-table.tsx:189 | the buttons are exactly 1..count, strictly ascending, starting at 1 and ending at count; a negative count gives none |
| Pagination.HighlightedButton | src/components/ui/orders-table.tsx:189-196 | some button equals the current page iff it lies in 1..count, and at most one does |
| Pagination.PrevTarget | src/components/ui/orders-table.tsx:180-182 | "previous" is disabled iff the current page is 1; otherwise it asks for a smaller page |
| Pagination.NextTarget | src/components/ui/orders-table.tsx:201-203 | "next" is disabled iff the current page is the last; otherwise it asks for a larger page |
| Pagination.ArrowsStayInRange | src/components/ui/orders-table.tsx:180-203 | from a page in 1..totalPages an enabled arrow asks for a page in 1..totalPages |
| Roles.Permissions.Flip | src/app/dashboard/roles/page.tsx:41-44 | the named permission is negated and the other four keep their values |
| Roles.ToggleRolesAt | src/app/dashboard/roles/page.tsx:36-49 | the toggled table has the same length and each position is the per-role update of the old one |
| Roles.ToggleFlipsExactlyOne | src/app/dashboard/roles/page.tsx:35-49 | exactly permission p of module moduleIndex of every role with id roleId flips; role count and order, role fields, module counts, module names and all other permissions are unchanged |
| Roles.ToggleKeepsToggleable | src/app/dashboard/roles/page.tsx:38-43 | the toggled table can be toggled again at the same place |
| Roles.ToggleRoleTwice | src/app/dashboard/roles/page.tsx:37-47 | toggling one role twice restores it |
| Roles.ToggleTwiceRestores | src/app/dashboard/roles/page.tsx:43 | toggling the same permission twice restores the whole table |
| Roles.ToggleUnknownRoleIsIdentity | src/app/dashboard/roles/page.tsx:36-49 | when no role has the id the table comes back unchanged |
| Roles.RolesPage.constructor | src/app/dashboard/roles/page.tsx:18 | the table on screen starts empty |
| Roles.RolesPage.Load | src/app/dashboard/roles/page.tsx:20-28 | a saved table becomes the state and storage is untouched; otherwise the defaults become the state and are saved; afterwards storage mirrors the state |
| Roles.RolesPage.TogglePermission | src/app/dashboard/roles/page.tsx:30-53 | when every matching role has the module, the state becomes the toggled table and is written to storage, also when no role matched; otherwise (the updater throws) nothing changes |
| Roles.RolesPage.Reset | src/app/dashboard/roles/page.tsx:55-58 | state and storage become the default table whatever came before, so a second reset changes nothing |
| OrdersTable.Ids | src/components/ui/orders-table.tsx:97 | one id per order, position by position |
| OrdersTable.Table.constructor | src/components/ui/orders-table.tsx:39 | nothing is selected at first |
| OrdersTable.Table.HeaderChanged | src/components/ui/orders-table.tsx:95-101 | checking selects exactly the ids of the rows on screen in order; unchecking clears the selection |
| OrdersTable.Table.RowClicked | src/components/ui/orders-table.tsx:121-128 | an unselected id is appended; a selected id is removed everywhere with other ids kept in order; the id's membership flips; a selection without duplicates stays without duplicates |
| OrdersTable.StatusColor | src/components/ui/orders-table.tsx:41-50 | each of the five statuses has a badge; orange iff Processing or Placed, blue iff Shipped, green iff Delivered, red iff Cancelled |
| OrdersTable.StatusColorsDistinguish | src/components/ui/orders-table.tsx:41-50 | two statuses share a badge iff they are equal or are Processing and Placed |
| OrdersTable.PaymentColor | src/components/ui/orders-table.tsx:149-151 | green iff "paid", red iff "unpaid", orange for any other text |
| OrdersTable.FooterAsWritten | src/components/ui/orders-table.tsx:177 | the footer's end never exceeds the number of rows and it spans at most ten |
| OrdersTable.FooterAsWrittenInvertedPastFirstPage | src/components/ui/orders-table.tsx:177 | from page 2 on, with at most ten rows, the written label is an inverted range |
| OrdersTable.FooterAsWrittenExample | src/components/ui/orders-table.tsx:177 | page 2 with ten rows reads 11 to 10 |
| OrdersTable.Footer | src/components/ui/orders-table.tsx:177 | the corrected label starts at 1 or later and spans exactly the rows on screen |
| OrdersTable.FooterAgreesOnFirstPage | src/components/ui/orders-table.tsx:177 | on page 1 the corrected and the written label agree |
| Customers.FetchOutcome | src/app/dashboard/customers/page.tsx:28-49 | no token gives "No authentication token found"; success iff a token and an OK reply with a JSON body, and then the payload; a rejection gives its reason; an unparsable body gives the parser message; a non-OK JSON reply gives its `error` or "Failed to fetch customers" |
| Customers.UnparsableErrorBodyShowsParserMessage | src/app/dashboard/customers/page.tsx:41-43 | a non-OK reply whose body is not JSON shows the parser's message, not the fallback |
| Customers.FailureMessageNonEmpty | src/app/dashboard/customers/page.tsx:41-51 | a failed fetch always stores a non-empty message when the reason and parser message are non-empty |
| Customers.CustomersPage.constructor | src/app/dashboard/customers/page.tsx:16-21 | no customers, no pagination, loading, no error, status "all", page 1 |
| Customers.CustomersPage.FetchCustomers | src/app/dashboard/customers/page.tsx:24-55 | a request for the page only with a token; on success list, pagination and the server's current page replace the old ones and the error is cleared; on failure they stay and the message is stored; loading ends false |
| Customers.CustomersPage.Mount | src/app/dashboard/customers/page.tsx:57-59 | page 1 is requested when there is a token; on success list and pagination are replaced, the current page becomes the server's `current_page` and the error is cleared; on failure they stay and the message is stored; loading ends false; the status filter is kept |
| Customers.CustomersPage.PageButtonClicked | src/app/dashboard/customers/page.tsx:185-188 | clicking rendered button k requests page k when there is a token; on success list and pagination are replaced and the current page becomes the server's `current_page`, which need not be k; on failure list, pagination and page stay and the message is stored; loading ends false |
| Customers.CustomersPage.SelectStatus | src/app/dashboard/customers/page.tsx:96-100 | only the selected status changes; nothing is fetched |
| Customers.DisplayName | src/app/dashboard/customers/page.tsx:139 | the name when non-empty, else "Unnamed User" |
| Customers.LastLogin | src/app/dashboard/customers/page.tsx:150-153 | "Never" iff the last login is absent or empty |
| Customers.StatusBadge | src/app/dashboard/customers/page.tsx:156-160 | green iff active, orange iff suspended, red for anything else |
| Customers.StatusLabel | src/app/dashboard/customers/page.tsx:161 | same length as the status; only the first character is upper-cased |
| CustomerDetails.FetchOutcome | src/app/dashboard/customers/details/page.tsx:41-58 | the token is checked before the id; success iff both are present and the reply is OK with a JSON body; otherwise the reason, parser message, `error` field or "Failed to fetch customer details" |
| CustomerDetails.FetchFailureMessageNonEmpty | src/app/dashboard/customers/details/page.tsx:41-64 | a failed fetch has a non-empty message whenever the rejection reason and parser message are non-empty |
| CustomerDetails.UpdateOutcome | src/app/dashboard/customers/details/page.tsx:126-149 | accepted iff a token and an OK status, whatever the body; otherwise the rejection reason, or for a non-OK reply the parser message or the `error` field or "Failed to update status" |
| CustomerDetails.AcceptedUpdateIgnoresBody | src/app/dashboard/customers/details/page.tsx:146-153 | with a token, any 2xx reply is accepted, empty or non-JSON bodies included |
| CustomerDetails.UpdateFailureMessageNonEmpty | src/app/dashboard/customers/details/page.tsx:126-156 | a failed update has a non-empty message whenever the rejection reason and parser message are non-empty |
| CustomerDetails.Render | src/app/dashboard/customers/details/page.tsx:76-82 | loading first; then the error, or "Customer not found" without details; details only with no error |
| CustomerDetails.DetailsPage.constructor | src/app/dashboard/customers/details/page.tsx:28-37 | no details, loading, no error, page 1, modal closed, empty form |
| CustomerDetails.DetailsPage.FetchDetails | src/app/dashboard/customers/details/page.tsx:39-68 | a request only with token and id; success stores the details and leaves any earlier error in place; failure stores the message and keeps the details; loading ends false; a non-empty error stays non-empty when the reply's own messages are |
| CustomerDetails.DetailsPage.Mount | src/app/dashboard/customers/details/page.tsx:70-74 | with the id present the current page is fetched, with the details and error FetchDetails gives and loading false; without it nothing changes; modal, form and update log are kept; a non-empty error stays non-empty |
| CustomerDetails.DetailsPage.SetPage | src/app/dashboard/customers/details/page.tsx:394-399 | the page becomes k; only when it changed and the id is present is page k fetched, with the details and error FetchDetails gives; otherwise details, error and loading stay; modal, form and update log are kept |
| CustomerDetails.DetailsPage.OpenStatusModal | src/app/dashboard/customers/details/page.tsx:184 | the modal opens and nothing else changes |
| CustomerDetails.DetailsPage.CloseStatusModal | src/app/dashboard/customers/details/page.tsx:416 | the modal closes and nothing else changes |
| CustomerDetails.DetailsPage.EditForm | src/app/dashboard/customers/details/page.tsx:427-443 | the status and the reason take the typed values and nothing else changes |
| CustomerDetails.DetailsPage.HandleStatusUpdate | src/app/dashboard/customers/details/page.tsx:124-157 | with a token exactly the id, status and reason are posted; on acceptance the current page is fetched again, giving the details and error FetchDetails gives, and the modal closes; on failure the error is set and modal, details and requests stay; a non-empty error stays non-empty |
| CustomerDetails.ErrorIsSticky | src/app/dashboard/customers/details/page.tsx:76-82 | once loading is over a non-empty error is what the page shows, whatever details are loaded; the handlers' contracts keep such an error non-empty |
| CustomerDetails.DonutSeries | src/app/dashboard/customers/details/page.tsx:97 | four slices: processing, completed, cancelled, shipped |
| CustomerDetails.DonutLabelsAsWrittenMislabelShipped | src/app/dashboard/customers/details/page.tsx:96-97 | the written labels match the series in length, but the fourth shows the shipped count under "Placed", which names no count of the overview |
| CustomerDetails.DonutLabelsNameTheirSlices | src/app/dashboard/customers/details/page.tsx:96-97 | with "Shipped" as the fourth label every label names the count its slice shows |
| Dashboard.Outcome | src/app/dashboard/page.tsx:103-129 | no token gives "Authentication token not found"; 500 gives the server-error message; other non-OK replies give `error` or "Request failed with status N"; success iff an OK JSON reply |
| Dashboard.ServerErrorIgnoresBody | src/app/dashboard/page.tsx:119-121 | a 500 reply gives the same message whatever its body |
| Dashboard.UnparsableErrorBodyCountsAsEmpty | src/app/dashboard/page.tsx:123-126 | an error body that is not JSON reads like a JSON body without `error` |
| Dashboard.StatusMessageIdentifiesStatus | src/app/dashboard/page.tsx:125 | equal fallback messages mean equal statuses |
| Dashboard.YearlyPoints | src/app/dashboard/page.tsx:190-193 | one point per month, same value, dated "Month m" |
| Dashboard.TimelineData | src/app/dashboard/page.tsx:176-197 | '24 Hour' gives the daily series, '7 Days' and '30 Days' the monthly one, '12 Months' the relabelled yearly one, anything else nothing |
| Dashboard.YearlyLabelsDistinguishMonths | src/app/dashboard/page.tsx:190-193 | different months get different "Month m" labels |
| Dashboard.Count | src/app/dashboard/page.tsx:208-212 | the stored count of a status, or 0 when the stats or the status are missing |
| Dashboard.SumValues | src/app/dashboard/page.tsx:216 | a sum of non-negative row values is non-negative |
| Dashboard.StatusRows | src/app/dashboard/page.tsx:207-213 | five rows in card order: completed, processing, pending, shipped, cancelled |
| Dashboard.TotalOrdersIsSumOfStatuses | src/app/dashboard/page.tsx:207-216 | the total is the sum of the five counts, a missing one counting 0; with no stats it is 0 |
| Dashboard.TotalOrdersNonNegative | src/app/dashboard/page.tsx:207-216 | with non-negative counts the total is non-negative |
| Dashboard.TableArrows | src/app/dashboard/page.tsx:384-385 | with the fixed count of five pages, "next" is disabled exactly on page 5 and "previous" exactly on page 1, and neither leaves 1..5 |
| Dashboard.StatsLanded | src/app/dashboard/page.tsx:128-134 | the stats reply never touches the orders; success stores the stats and clears the shared error; failure keeps the stats and stores its message |
| Dashboard.OrdersLanded | src/app/dashboard/page.tsx:162-167 | the orders reply never touches the stats; success stores the orders and keeps the error; failure keeps the orders and stores its message |
| Dashboard.MountOrderDecidesErrorAsWritten | src/app/dashboard/page.tsx:128-173 | with the stats succeeding and the orders failing, the orders message is shown when the orders land last, and is lost, leaving the dashboard view without orders, when the stats land last |
| Dashboard.SeparateErrorsIgnoreReplyOrder | src/app/dashboard/page.tsx:128-173 | with one error per fetch the two landings commute, and any failure with a non-empty message stays shown |
| Dashboard.Render | src/app/dashboard/page.tsx:245-255 | loading first, then a non-empty error, then "No data available", otherwise the dashboard |
| Dashboard.DashboardPage.constructor | src/app/dashboard/page.tsx:90-96 | timeframe "30 Days", no data, fetching, page 1, no orders, empty error |
| Dashboard.DashboardPage.FetchData | src/app/dashboard/page.tsx:100-138 | a stats request only with a token; success stores the data and clears the error; failure stores the message and keeps the data; fetching ends false |
| Dashboard.DashboardPage.FetchOrders | src/app/dashboard/page.tsx:140-170 | an orders request only with a token; success stores the orders and leaves the error; failure stores the message; the fetching flag is untouched |
| Dashboard.DashboardPage.Mount | src/app/dashboard/page.tsx:98-173 | with the stats reply landing first: both requests go out with a token; each fetch stores its payload on success and keeps the old value on failure; the orders failure message wins, a stats failure message survives an orders success, and the error is empty only when both succeed; page and timeframe stay |
| Dashboard.DashboardPage.MountOrdersLandFirst | src/app/dashboard/page.tsx:98-173 | with the orders reply landing first the state is the stats landing applied after the orders landing, so a stats success leaves the error empty whatever the orders did |
| Dashboard.DashboardPage.ChangeTimeframe | src/app/dashboard/page.tsx:340-357 | only the timeframe changes; the page's `total` state, which the same handler sets and nothing renders, is not modelled |
| Dashboard.DashboardPage.PageChange | src/app/dashboard/page.tsx:386-421 | the page moves to the asked page only when its orders arrived; on failure page and orders stay and the error is set |
| Dashboard.FailedFetchShowsError | src/app/dashboard/page.tsx:249-251 | every failed fetch leaves a message that the error view shows |
| AddProduct.Trim | src/app/dashboard/products/add/page.tsx:38 | the result is a slice of the input with no space at either end and only space outside it |
| AddProduct.TrimStart | src/app/dashboard/products/add/page.tsx:38 | a suffix of the input whose dropped prefix is all space and whose first character is not space |
| AddProduct.TrimEnd | src/app/dashboard/products/add/page.tsx:38 | a prefix of the input whose dropped suffix is all space and whose last character is not space |
| AddProduct.TrimEmptyIffAllSpace | src/app/dashboard/products/add/page.tsx:38 | the trimmed text is empty iff the input is only space |
| AddProduct.TrimIdempotent | src/app/dashboard/products/add/page.tsx:40 | trimming twice equals trimming once |
| AddProduct.AddProductForm.constructor | src/app/dashboard/products/add/page.tsx:24-28 | the four initial tags, empty input, no images, library closed |
| AddProduct.AddProductForm.RemoveTag | src/app/dashboard/products/add/page.tsx:32-34 | every copy of the tag goes; other tags keep their count and order |
| AddProduct.AddProductForm.EditNewTag | src/app/dashboard/products/add/page.tsx:123 | only the input text changes |
| AddProduct.AddProductForm.KeyDown | src/app/dashboard/products/add/page.tsx:37-43 | Enter with non-blank input appends the trimmed text, duplicates included, and clears the input; any other key or blank input changes nothing |
| AddProduct.AddProductForm.RemoveImage | src/app/dashboard/products/add/page.tsx:158-160 | exactly the images with the id go; the others keep their count and order |
| AddProduct.AddProductForm.AddFiles | src/app/dashboard/products/add/page.tsx:178-188 | picked images are appended after the existing ones; no file list changes nothing |
| AddProduct.AddProductForm.OpenLibrary | src/app/dashboard/products/add/page.tsx:209 | the library opens and the lists stay |
| AddProduct.AddProductForm.LibrarySelect | src/app/dashboard/products/add/page.tsx:219-222 | chosen images are appended and the library closes |
| AddProduct.AddProductForm.CloseLibrary | src/app/dashboard/products/add/page.tsx:223 | the library closes and the lists stay |
| AddProduct.AddedTagIsTrimmed | src/app/dashboard/products/add/page.tsx:38-40 | an added tag is non-empty, has no space at either end, and trimming it again changes nothing |
| AddProduct.RemoveUndoesAdd | src/app/dashboard/products/add/page.tsx:32-40 | removing a tag right after adding it gives what removing it before would have |
| AddProduct.RemoveImageKeepsNewUploads | src/app/dashboard/products/add/page.tsx:158-187 | removing an id that no new upload uses keeps the new uploads, in order, after the remaining earlier images |
| AdminDelete.Classify | src/components/AdminDeleteModal.tsx:30-54 | no token, rejection, 401 with "Token has expired" (expired), other 401 (fixed message), other non-OK (`error` or fallback, unparsable as empty), OK but unparsable, and success with `message` or the default |
| AdminDelete.ErrorField | src/components/AdminDeleteModal.tsx:41 | a body that is not JSON counts as `{}`, with no `error` field; a JSON body gives its own `error` |
| AdminDelete.UnauthorizedHidesBackendMessage | src/components/AdminDeleteModal.tsx:42-48 | a 401 yields either the expired session or the fixed authentication message |
| AdminDelete.ToastFor | src/components/AdminDeleteModal.tsx:44-56 | a success toast iff deleted; the expired toast for an expired session; the message for a failure |
| AdminDelete.Effects | src/components/AdminDeleteModal.tsx:26-60 | no events without a selected admin; otherwise one to four events, among them the toast of the classified outcome |
| AdminDelete.CallbacksOnlyOnSuccess | src/components/AdminDeleteModal.tsx:51-54 | onClose runs iff an admin was deleted, onDeleted iff also given, and onClose comes last |
| AdminDelete.OneToastPerDelete | src/components/AdminDeleteModal.tsx:30-56 | exactly one toast per delete; a request only with a token, naming the selected admin |
| AdminDelete.DeleteModal.constructor | src/components/AdminDeleteModal.tsx:24 | not loading, nothing done yet |
| AdminDelete.DeleteModal.HandleDelete | src/components/AdminDeleteModal.tsx:26-60 | without an admin nothing happens and loading keeps its value; otherwise the events of the classified outcome happen and loading ends false |
| AdminDelete.Visible | src/components/AdminDeleteModal.tsx:62 | renders iff open and an admin is selected |
| AdminDelete.ShownName | src/components/AdminDeleteModal.tsx:70 | the name, else the email, else "ID: id"; never empty |
| CustomerStats.MonthIndex | src/components/ui/customer-stats-card.tsx:18-31 | a position 0..11 with that code, or none when the text is not a month code |
| CustomerStats.MonthLabel | src/components/ui/customer-stats-card.tsx:35 | "01".."12" map to Jan..Dec; any other text maps to itself |
| CustomerStats.MonthLabelsDistinct | src/components/ui/customer-stats-card.tsx:18-31 | different month codes get different names |
| CustomerStats.MonthLabelDiffersFromCode | src/components/ui/customer-stats-card.tsx:18-35 | a month's name never equals its code |
| CustomerStats.ChartData | src/components/ui/customer-stats-card.tsx:34-39 | one row per entry with the month relabelled and total = active + newSignups |
| CustomerStats.MaxValue | src/components/ui/customer-stats-card.tsx:41 | none iff there are no rows; otherwise at least every count and attained by some row |
| CustomerStats.YAxisMax | src/components/ui/customer-stats-card.tsx:42 | at least 10, at least every count, and 10 for an empty chart |
| CustomerStats.YAxisLeavesHeadroom | src/components/ui/customer-stats-card.tsx:42 | for a non-negative maximum the bound is at least 6/5 of it |
| CustomerStats.ChartSeries | src/components/ui/customer-stats-card.tsx:86-95 | two series, "Active" then "New Sign-ups", each as long as the data |
| CustomerStats.Actives | src/components/ui/customer-stats-card.tsx:88 | the active counts of the entries, one per entry in order |
| CustomerStats.Signups | src/components/ui/customer-stats-card.tsx:92 | the new-signup counts of the entries, one per entry in order |
| CustomerStats.Categories | src/components/ui/customer-stats-card.tsx:63 | the raw month codes, one per entry |
| CustomerStats.SeriesAlignWithCategories | src/components/ui/customer-stats-card.tsx:63-95 | bar i of each series comes from entry i and sums to row i's total; for a month code the axis shows the code while the row shows the name |
| Auth.AuthProvider.constructor | src/context/AuthContext.tsx:13 | not authenticated at first |
| Auth.AuthProvider.Mount | src/context/AuthContext.tsx:16-20 | the flag becomes whether a non-empty token is stored |
| Auth.AuthProvider.Login | src/context/AuthContext.tsx:22-27 | stores "dummy-token" whatever the credentials, sets the flag, navigates to /dashboard |
| Auth.AuthProvider.Logout | src/context/AuthContext.tsx:29-33 | removes the token, clears the flag, navigates to /login |
| Auth.LoginIgnoresCredentials | src/context/AuthContext.tsx:22-24 | after login the stored token is "dummy-token" |
| Auth.LogoutLeavesNoToken | src/context/AuthContext.tsx:30 | after logout no token is stored and other entries are kept |
| Auth.UseAuth | src/context/AuthContext.tsx:42-47 | the context when present, otherwise the "must be used within an AuthProvider" error |
| ProtectedRoute.Guard | src/components/ProtectedRoute.tsx:9-15 | children render iff authenticated; a redirect to /login iff unauthenticated and not already on /login |
| ProtectedRoute.GuardInContext | src/components/ProtectedRoute.tsx:6-15 | outside a provider the guard fails with the hook's error; inside it decides as Guard does |
| ProtectedRoute.GuardNeverBothRendersAndRedirects | src/components/ProtectedRoute.tsx:10-15 | never both rendered and redirected; never redirected from /login |
| ProtectedRoute.GuardFollowsStoredToken | src/components/ProtectedRoute.tsx:10-15 | with a consistent auth flag, a stored token renders the page and no token redirects to /login |
| Sidebar.Entry | src/components/sidebar/Sidebar.tsx:51-68 | active iff the path equals the href exactly; a badge iff the item's badge text is non-empty |
| Sidebar.Nav | src/components/sidebar/Sidebar.tsx:49 | one link per item, in table order |
| Sidebar.MenuHrefsDistinct | src/components/sidebar/Sidebar.tsx:23-37 | no two items share an href |
| Sidebar.MenuBadges | src/components/sidebar/Sidebar.tsx:25 | only Order Management has a badge |
| Sidebar.AtMostOneActive | src/components/sidebar/Sidebar.tsx:51 | at most one link is highlighted for any path |
| Sidebar.UnlistedPathHighlightsNothing | src/components/sidebar/Sidebar.tsx:51 | a path equal to no href highlights no item, even one that extends an href |
| Sidebar.NoPrefixMatching | src/components/sidebar/Sidebar.tsx:51 | the customer details page, whose path extends the customers href, highlights no item |
| Sidebar.OnlyOrderManagementHasBadge | src/components/sidebar/Sidebar.tsx:64-68 | only Order Management's link shows a badge, reading "13" |

## Left out

- The requests themselves (URLs, headers, the `Authorization: Bearer` scheme of section 2.1 of RFC 6750, `credentials`). Each reply is an input and each sent request an entry in a log.
- JSON encoding. The stored role table is the value itself, so a `JSON.stringify`/`JSON.parse` round trip is the identity. A stored value that is not valid JSON is not modelled, and neither is the empty string, which the load effect treats as "no saved table".
- Payload shapes on success are assumed well formed. A 2xx body without `users`, `pagination` or `orders` would make the source throw or store `undefined`.
- Toast delivery, the router and the browser. Toasts and `router.push` become entries in an event log or a navigation log.
- Concurrency. Handlers run as atomic steps. Interleavings of overlapping fetches are not modelled, apart from the two completion orders of the dashboard's mount fetches.
- Customers.CustomersPage.FetchCustomers: the transient `loading = true` and `error = null` at the start are not visible, because the handler is one step; the contract states the final state.
- AdminDelete.DeleteModal.HandleDelete: `loading` being true while the request is in flight is not stated, for the same reason.
- Dashboard.DashboardPage.Mount: the stats reply is taken to land before the orders reply. In the other order (Dashboard.DashboardPage.MountOrdersLandFirst) a stats success clears the error, so an orders failure can vanish entirely and the page shows the dashboard with no orders; see "## Findings".
- CustomerDetails.DetailsPage.HandleStatusUpdate: the refetch is not awaited in the source; here it completes before the modal closes.
- CustomerStats.YAxisMax: `maxValue * 1.2` is taken as exactly 6/5 of an integer maximum. Floating-point rounding of 1.2 can move the ceiling by one, so the contract states bounds only.
- CustomerStats.MonthLabel: the lookup on a plain object also finds inherited keys such as "constructor"; only string keys are modelled.
- Customers.StatusLabel: `toUpperCase` is modelled for ASCII letters only.
- Floating-point formatting: `formatSalesTotal`, `formatTotal`, `toFixed`, `toLocaleString`, the file size text, and the percentage change on the order-status card. That change divides by `pending`.
- `Date` parsing and display, `Math.random` image ids, `URL.createObjectURL`, and parsing the order products on the details page. Image entries arrive ready-made as inputs.
- `formatCustomerStatistics`, and the dashboard page's `total` state that the sales chart's timeframe change sets (src/app/dashboard/page.tsx:340-357): nothing renders it, and its value is a formatted float.
- The default role table is a constructor parameter, not a constant, because it is defined outside the modelled files.
- Clamping of the current page: the pages take the server's `current_page` as it comes and do not clamp it to 1..total_pages. The model does the same, and Pagination.ConsistentPageIsNonEmpty assumes an in-range page rather than enforcing one.
- Roles.RolesPage.TogglePermission: `ok == false` stands for the TypeError the state updater throws when a matching role lacks the module. In React that is a render-time crash of the page, not a quiet no-op; the model only says the stored table and the state are not changed by it.
- ProtectedRoute.GuardFollowsStoredToken: assumes the auth flag already reflects storage. On a fresh load React runs the guard's effect (a child) before the provider's mount effect, while the flag is still false, so a visitor with a stored token is sent to /login. The order of effects is not modelled.
- `onDeleted` is optional; the model passes whether it was given as a boolean.
- Markup, styling, charts' visual configuration, fonts and icons.

## Findings

| source | as written | input that shows it | evidently intended | confidence | as-written member | corrected member |
|---|---|---|---|---|---|---|
| src/components/ui/orders-table.tsx:177 | the footer runs from `(currentPage - 1) * 10 + 1` to `min(currentPage * 10, orders.length)`, but `orders` holds only the rows of the current page | page 2 with ten rows reads "Showing 11 to 10 of 10 results" | the positions of the rows on screen, 11 to 20 | medium, not executed | OrdersTable.FooterAsWrittenInvertedPastFirstPage | OrdersTable.Footer |
| src/app/dashboard/customers/details/page.tsx:96-97 | the fourth donut label is "Placed" while its value is `stats.shipped`; the overview has no placed count | any overview with shipped = 5 draws a slice "Placed: 5" | the label "Shipped" | medium, not executed | CustomerDetails.DonutLabelsAsWrittenMislabelShipped | CustomerDetails.DonutLabelsNameTheirSlices |
| src/app/dashboard/page.tsx:128-167 | both mount fetches write one shared `error`, and the stats success clears it with `setError('')` | stats reply OK, orders reply failing with "Request failed with status 404", orders reply landing first: the error ends empty and the dashboard renders with no orders and no message | the orders failure stays visible whichever reply lands last | low, not executed | Dashboard.MountOrderDecidesErrorAsWritten | Dashboard.SeparateErrorsIgnoreReplyOrder |
