# ERP finance front end — a Dafny model

This project models the client side of a small ERP finance application: a React
single-page app. In the app, every page keeps a list fetched from a REST backend,
and some pages also keep a create form. A session guard protects the pages, and a
shared HTTP client attaches the stored token to every request. The model covers
seven parts of the app:

- **Request-description layer** (`api.dfy`, module `Api`). It holds:
  - the base-URL choice and the default headers;
  - the interceptor that adds `Authorization: Bearer <token>`;
  - the endpoint table of every `*API` object, as a pure map from an operation to
    a method, a path, query parameters and a body.

  `Decode` is an independent reading of that table. It is proved to invert it,
  so no two operations share a request.
- **Application shell** (`app.dfy`, module `App`). It holds:
  - the token guard `ProtectedRoute`;
  - the route table, matched as React Router v6 matches it (ASCII case and
    trailing slashes ignored), and where each location settles after redirects;
  - the role-gated navigation links of `Layout`;
  - the sidebar toggle and logout.
- **Audit log page** (`audit_logs.dfy`, module `AuditLogs`). Pagination by offset
  and limit. Offset stays a non-negative multiple of the limit. Next then Previous
  is a round trip. Each step moves the page label by one.
- **Invoice page** (`invoices.dfy`, module `Invoices`). It holds:
  - the draft and the line-item editor, with the invariant
    *amount = quantity × unit price*, proved for every sequence of edits the form
    can issue;
  - the Sales/Purchase party selector;
  - the all-or-nothing load;
  - creation, which keeps the draft.
- **Chart of accounts** and **user management** (`chart_of_accounts.dfy`,
  `user_management.dfy`). They follow the create-form pattern:
  - the loading flag, and list replacement on fetch;
  - the form toggle and the draft edits;
  - a draft reset only after a successful create;
  - for users only, the delete confirmation.
- **Dashboard** (`dashboard.dfy`, module `Dashboard`). It holds:
  - the all-or-nothing load;
  - the KPI card defaults, where counts fall back on falsy values and money
    falls back only when missing;
  - the visibility of the alerts and the chart;
  - the alert headings, where only the first underscore is replaced.
- **Shared values** (`common.dfy`, module `Common`). `Option`, the `Outcome` of a
  backend call, JavaScript numbers with NaN, `Promise.all` over three calls, and
  the browser's storage as a `map<string, string>`.

The pages are classes whose fields are the component's state variables. The fields
change under `modifies this`. A handler that issues backend calls returns the
`Request`s it issues. The outcome of each call (`Success(data)` or `Failure`)
arrives as a parameter, either of the handler or of a separate "apply fetch" step.

The dashboard and invoice pages load with `Promise.all`. One rejected call
therefore rejects the whole load and no slice of state is set. The model follows
the code. One might expect each slice to be set on its own; the code does not do
that.

## Model

| member | source | states |
|---|---|---|
| Api.BearerHeaders | src/services/api.js:14-20 | Authorization is "Bearer " + token exactly when a truthy token is stored; without one the headers are unchanged; no other header is added, removed or changed |
| Api.InterceptorKeepsContentType | src/services/api.js:8-10 | the default Content-Type: application/json survives the interceptor for every storage |
| Api.RequestConfig.constructor | src/services/api.js:6-11 | a new config carries the base URL, the request and the default headers |
| Api.RequestConfig.Intercept | src/services/api.js:14-20 | the interceptor updates the config's headers in place to BearerHeaders of the old headers |
| Api.AuditLogsDefaults | src/services/api.js:83-84 | getAuditLogs always GETs /admin/audit-logs; a given limit or offset is sent as it is, an omitted limit as 100 and an omitted offset as 0 |
| Api.Describe | src/services/api.js:22-86 | every path starts with "/"; the body is exactly the data argument (none for GET, DELETE and approveJournalEntry); query parameters exist only for getAuditLogs, and there they are exactly limit and offset |
| Api.UrlJoin | src/services/api.js:6-8 | the client joins a base URL without a trailing slash and any described path by plain concatenation, and one or two trailing slashes on the base change nothing |
| Api.RequestUrl | src/services/api.js:3-8 | without REACT_APP_API_URL (unset or empty) every request goes to http://localhost:5000/api + its path; with a value that does not end in "/" it goes to that value + its path |
| Api.TrailingSlashIgnored | src/services/api.js:3-8 | a REACT_APP_API_URL with one trailing slash addresses the same URLs as the value without it |
| Api.DescribedPathsRelative | src/services/api.js:22-86 | no described path is an absolute URL (no scheme, no leading "//"), so the client always joins it to the base URL |
| Api.DecodedPathsRelative | src/services/api.js:22-86 | a request the endpoint table reads back has a path whose second character is not a slash |
| Api.DecodeAuth | src/services/api.js:22-29 | each authAPI request, ids included, reads back as its operation |
| Api.DecodeFinance | src/services/api.js:31-43 | each financeAPI request, including the /approve suffix, reads back as its operation |
| Api.DecodeInvoice | src/services/api.js:45-52 | each invoiceAPI request, including the /status and /payments suffixes, reads back as its operation |
| Api.DecodeVendorCustomer | src/services/api.js:54-60 | each vendorCustomerAPI request reads back as its operation |
| Api.DecodeProject | src/services/api.js:62-67 | each projectAPI request reads back as its operation |
| Api.DecodeInsights | src/services/api.js:69-74 | each insightsAPI request reads back as its operation |
| Api.DecodeDashboard | src/services/api.js:76-80 | each dashboardAPI request reads back as its operation |
| Api.DecodeAdmin | src/services/api.js:82-86 | each adminAPI request, audit-log parameters included, reads back as its operation |
| Api.DecodeDescribe | src/services/api.js:22-86 | reading back any described request gives the operation it came from |
| Api.DescribeInjective | src/services/api.js:22-86 | two operations with the same request are the same operation: the endpoint table is unambiguous for all interpolated ids |
| App.Resolve | src/App.js:80-132 | a location matches no route exactly when no route path equals it up to ASCII case and trailing slashes; only a guarded route renders inside Layout |
| App.FindRoute | src/App.js:80-132 | the element of a matching route, and none exactly when no route matches |
| App.TableRoutes | src/App.js:80-132 | each route path of the table selects its own element |
| App.AtMostOneMatch | src/App.js:80-132 | no location matches two routes, so the order of the table does not matter |
| App.TrailingSlashIgnored | src/App.js:80-132 | a location with a trailing slash shows the same view as the location without it |
| App.CaseIgnored | src/App.js:80-132 | two locations that agree up to ASCII letter case show the same view |
| App.SameKeySameRoute | src/App.js:80-132 | locations with the same normalised form select the same route |
| App.ProtectedPathsAreProtected | src/App.js:82-131 | /dashboard, /accounts, /invoices, /users and /audit-logs are wrapped in the token guard; /login, /register and / are not |
| App.GuardNeedsNonEmptyToken | src/App.js:12-15 | on a protected location the page renders inside Layout exactly when the "token" entry is present and non-empty, and otherwise the view redirects to /login |
| App.LoginRoute | src/App.js:80 | /login shows the login page outside Layout for every storage |
| App.DashboardRoute | src/App.js:82-90 | /dashboard is the dashboard page behind the token guard |
| App.EveryRouteSettles | src/App.js:80-132 | every location a route matches settles within two redirects: without a token everything but the register page ends on the login page; with one, "/" ends on the dashboard and each protected location on its own page |
| App.TokenContentIrrelevant | src/App.js:13-14 | any two non-empty tokens route every path alike |
| App.RoutingIgnoresUser | src/App.js:112-131 | adding, changing or removing the stored user never changes routing, so /users and /audit-logs are guarded by the token only |
| App.NavLinks | src/App.js:47-67 | the first three links are dashboard, accounts and invoices; /users and /audit-logs are shown exactly when user.role is exactly "Admin"; every link is a protected route; there are exactly five links for an administrator and three otherwise |
| App.AdminLinksFollowStoredRole | src/App.js:18 | the admin links show exactly when a non-empty "user" entry is stored and parses to a record whose role is "Admin"; the token plays no part |
| App.NoUserNoAdminLinks | src/App.js:18 | with no stored user no admin link shows, and the role "admin" is not an administrator |
| App.ClearSession | src/App.js:21-23 | removes exactly the token and user keys, keeps every other entry, and leaves no token |
| App.LogoutLocksProtectedRoutes | src/App.js:21-25 | after logout every protected path redirects to /login |
| App.Browser.constructor | src/App.js:24 | a window with the given storage and location |
| App.Layout.constructor | src/App.js:19 | the sidebar starts open |
| App.Layout.ToggleSidebar | src/App.js:42 | the toggle flips sidebarOpen |
| App.Layout.Logout | src/App.js:21-25 | storage becomes ClearSession of the old storage, the location becomes /login, the sidebar is untouched |
| AuditLogs.Previous | src/pages/AuditLogs.js:66-70 | offset becomes max(0, offset − limit) with limit and total unchanged; it lands on 0 exactly when offset ≤ limit |
| AuditLogs.PageNumber | src/pages/AuditLogs.js:76 | for aligned pagination the label is at least 1 and (label − 1) × limit is the offset |
| AuditLogs.PreviousKeepsAligned | src/pages/AuditLogs.js:69 | Previous keeps offset a non-negative multiple of limit |
| AuditLogs.NextKeepsAligned | src/pages/AuditLogs.js:81 | Next keeps offset a non-negative multiple of limit |
| AuditLogs.NextThenPrevious | src/pages/AuditLogs.js:69-81 | Next followed by Previous restores the pagination |
| AuditLogs.PreviousThenNext | src/pages/AuditLogs.js:69-81 | while Previous is enabled, Previous followed by Next restores the pagination |
| AuditLogs.PageNumberSteps | src/pages/AuditLogs.js:76 | Next raises the page label by one; an enabled Previous lowers it by one |
| AuditLogs.PageNumberUnique | src/pages/AuditLogs.js:76 | the label is the only page number whose offset matches |
| AuditLogs.UserCell | src/pages/AuditLogs.js:54 | the cell is never blank; any text but "System" is the stored name; "System" shows exactly for a missing or empty name, or for a user named "System" |
| AuditLogs.LogsRequest | src/pages/AuditLogs.js:20-23 | a GET of /admin/audit-logs whose parameters are the current limit and offset |
| AuditLogs.MountFetchesFirstPage | src/pages/AuditLogs.js:14-23 | the mount fetch asks for limit 50 and offset 0, not the client defaults 100 and 0 |
| AuditLogs.AuditLogsPage.constructor | src/pages/AuditLogs.js:6-12 | no logs, loading, pagination limit 50, offset 0, total 0 |
| AuditLogs.AuditLogsPage.ClickPrevious | src/pages/AuditLogs.js:66-71 | pagination becomes Previous of the old one and stays aligned; the effect on the offset (lines 14-16) issues a fetch of the new page exactly when the offset changed |
| AuditLogs.AuditLogsPage.ClickNext | src/pages/AuditLogs.js:78-81 | pagination becomes Next of the old one and stays aligned; the effect on the offset (lines 14-16) issues the fetch of the new page |
| AuditLogs.AuditLogsPage.ApplyFetch | src/pages/AuditLogs.js:18-31 | success replaces the logs and the total and keeps limit and offset; failure keeps both; loading ends either way |
| AuditLogs.HundredTwentyEntries | src/pages/AuditLogs.js:72-84 | with 120 entries: Previous disabled and Next enabled on page 1; two Next clicks reach offset 100, page 3, where Next is disabled |
| Invoices.EditItem | src/pages/Invoices.js:55-65 | only the named field changes, plus the amount for quantity and unit price; those two edits establish amount = quantity × unit price and a description edit never breaks it |
| Invoices.DescriptionParsedWhenNumeric | src/pages/Invoices.js:57-62 | a description that looks numeric is stored as a number and any other as its text; the amount column always stores a number, NaN when the input does not parse; a description edit leaves the amount alone |
| Invoices.TextMakesAmountNaN | src/pages/Invoices.js:60-64 | text typed into quantity or unit price makes the amount NaN |
| Invoices.AmountEditCanBreakMatch | src/pages/Invoices.js:58-59 | a direct amount edit is stored verbatim and can break amount = quantity × unit price |
| Invoices.QuantityEditScenario | src/pages/Invoices.js:63-64 | quantity 3, unit price 10 edited to quantity 5 gives amount 50 |
| Invoices.EditItems | src/pages/Invoices.js:56-66 | the item list keeps its length, item idx is edited, every other item is unchanged |
| Invoices.FormEditsKeepAmounts | src/pages/Invoices.js:153-182 | any sequence of description, quantity and unit-price edits on existing rows keeps every amount equal to quantity × unit price |
| Invoices.InitialDraft | src/pages/Invoices.js:11-21 | one item {"", 1, 0, 0}, type Sales, currency USD, tax 0, no party, empty due date and description; the amount invariant holds |
| Invoices.PartySelectorsExclusive | src/pages/Invoices.js:92-121 | the customer and vendor selectors never show together; one shows exactly when the type is Sales or Purchase; the initial draft shows the customer selector |
| Invoices.SwitchedTypeKeepsOtherParty | src/pages/Invoices.js:83-121 | after switching a sales draft with a customer to Purchase and picking a vendor, the posted draft carries both the customer and the vendor |
| Invoices.LoadRequests | src/pages/Invoices.js:29-33 | three GETs: invoices, customers, vendors |
| Invoices.CreateRequest | src/pages/Invoices.js:47 | a POST to /invoices whose body is the draft |
| Invoices.InvoicesPage.constructor | src/pages/Invoices.js:6-21 | empty lists, loading, form hidden, the initial draft, amount invariant holds |
| Invoices.InvoicesPage.ApplyLoad | src/pages/Invoices.js:27-42 | the three lists are all set when every fetch succeeded and none otherwise; loading ends either way; form untouched |
| Invoices.InvoicesPage.ToggleForm | src/pages/Invoices.js:75 | flips showForm and nothing else |
| Invoices.InvoicesPage.SelectInvoiceType | src/pages/Invoices.js:83-91 | sets only the draft's invoice type |
| Invoices.InvoicesPage.SelectCustomer | src/pages/Invoices.js:96-97 | sets only the draft's customer |
| Invoices.InvoicesPage.SelectVendor | src/pages/Invoices.js:111-112 | sets only the draft's vendor |
| Invoices.InvoicesPage.EditInvoiceDate | src/pages/Invoices.js:128-130 | sets only the draft's invoice date |
| Invoices.InvoicesPage.EditDueDate | src/pages/Invoices.js:135-137 | sets only the draft's due date |
| Invoices.InvoicesPage.EditTaxAmount | src/pages/Invoices.js:193-198 | sets only the draft's tax to parseFloat of the input |
| Invoices.InvoicesPage.HandleItemChange | src/pages/Invoices.js:55-67 | the draft's items become EditItems of the old ones; all else unchanged; a non-amount edit preserves the amount invariant |
| Invoices.InvoicesPage.Submit | src/pages/Invoices.js:44-53 | an empty required due date blocks submission; otherwise the draft is posted, and success issues the refetch and hides the form while the draft is kept; failure changes nothing |
| ChartOfAccounts.FetchRequest | src/pages/ChartOfAccounts.js:23 | a GET of /finance/accounts |
| ChartOfAccounts.CreateRequest | src/pages/ChartOfAccounts.js:35 | a POST to /finance/accounts whose body is exactly the draft |
| ChartOfAccounts.InitialDraftFacts | src/pages/ChartOfAccounts.js:9-15 | the initial draft cannot be submitted, and its type is the first option, Asset |
| ChartOfAccounts.AccountsPage.constructor | src/pages/ChartOfAccounts.js:6-15 | no accounts, loading, form hidden, draft {"", "", Asset, 0, USD} |
| ChartOfAccounts.AccountsPage.ApplyFetch | src/pages/ChartOfAccounts.js:21-30 | success replaces the accounts, failure keeps them; loading ends either way |
| ChartOfAccounts.AccountsPage.ToggleForm | src/pages/ChartOfAccounts.js:56 | flips showForm and nothing else |
| ChartOfAccounts.AccountsPage.ToggleFormTwice | src/pages/ChartOfAccounts.js:56 | toggling twice leaves the page unchanged |
| ChartOfAccounts.AccountsPage.EditCode | src/pages/ChartOfAccounts.js:68-70 | sets only the draft's code |
| ChartOfAccounts.AccountsPage.EditName | src/pages/ChartOfAccounts.js:77-79 | sets only the draft's name |
| ChartOfAccounts.AccountsPage.EditType | src/pages/ChartOfAccounts.js:84-94 | sets only the draft's type |
| ChartOfAccounts.AccountsPage.EditBalance | src/pages/ChartOfAccounts.js:98-104 | sets only the draft's balance to parseFloat of the input |
| ChartOfAccounts.AccountsPage.Submit | src/pages/ChartOfAccounts.js:32-48 | an empty required code or name blocks submission; success posts the draft, issues a refetch, hides the form and resets the draft; failure changes nothing |
| UserManagement.FetchRequest | src/pages/UserManagement.js:22 | a GET of /users |
| UserManagement.CreateRequest | src/pages/UserManagement.js:34 | a POST to /users/register whose body is exactly the draft |
| UserManagement.DeleteRequest | src/pages/UserManagement.js:46 | a DELETE of /users/ + id |
| UserManagement.StatusCellDistinguishes | src/pages/UserManagement.js:131 | two rows show the same status exactly when both users are active or both are not; the cell is Active or Inactive |
| UserManagement.RoleOptions | src/pages/UserManagement.js:103-106 | the selector offers exactly four distinct roles, starting with the draft's initial role "user"; "Admin" is among them, "admin" is not |
| UserManagement.UsersPage.constructor | src/pages/UserManagement.js:6-14 | no users, loading, form hidden, draft {"", "", "", user} |
| UserManagement.UsersPage.ApplyFetch | src/pages/UserManagement.js:20-29 | success replaces the users, failure keeps them; loading ends either way |
| UserManagement.UsersPage.ToggleForm | src/pages/UserManagement.js:60 | flips showForm and nothing else |
| UserManagement.UsersPage.EditName | src/pages/UserManagement.js:72-74 | sets only the draft's name |
| UserManagement.UsersPage.EditEmail | src/pages/UserManagement.js:81-83 | sets only the draft's email |
| UserManagement.UsersPage.EditPassword | src/pages/UserManagement.js:92-94 | sets only the draft's password |
| UserManagement.UsersPage.EditRole | src/pages/UserManagement.js:97-107 | sets only the draft's role |
| UserManagement.UsersPage.Submit | src/pages/UserManagement.js:31-41 | an empty required field blocks submission; success registers the draft, issues a refetch, hides the form and resets the draft; failure changes nothing |
| UserManagement.UsersPage.Delete | src/pages/UserManagement.js:43-52 | a declined confirmation issues nothing; an accepted one issues the delete and, on success, a refetch; the list itself is never edited |
| Dashboard.CountShown | src/pages/Dashboard.js:54 | a count card shows a plain number, zero exactly when the value is falsy (missing, zero or NaN) |
| Dashboard.MoneyShown | src/pages/Dashboard.js:63 | a money card shows the plain fallback 0 exactly when the value is missing, and otherwise the stored value formatted to two decimals (zero and NaN included) |
| Dashboard.CountShowsValueOrZero | src/pages/Dashboard.js:58 | a count card shows the number itself whenever it is one, so a falsy zero is indistinguishable |
| Dashboard.MoneyZeroIsFormatted | src/pages/Dashboard.js:68 | a present zero balance differs from a missing one on a money card, but not on a count card |
| Dashboard.KpiCards | src/pages/Dashboard.js:51-78 | six cards with their titles in order; counts for projects, invoices and high-risk projects, money for the other three; all zero before a load |
| Dashboard.IndexOf | src/pages/Dashboard.js:87 | the first position of a character, or −1 exactly when it does not occur |
| Dashboard.ReplaceFirst | src/pages/Dashboard.js:87 | replace on a string pattern changes only the first occurrence, or nothing when there is none |
| Dashboard.ToUpper | src/pages/Dashboard.js:87 | toUpperCase upper-cases each character in place |
| Dashboard.AlertHeading | src/pages/Dashboard.js:87 | the heading has the type's length and no lower-case ASCII letter |
| Dashboard.OnlyFirstUnderscoreReplaced | src/pages/Dashboard.js:87 | the first underscore becomes a space, every other character is only upper-cased, and later underscores survive |
| Dashboard.AlertsSection | src/pages/Dashboard.js:81-93 | the alerts section renders exactly when there are alerts, with one heading per alert in order |
| Dashboard.LoadRequests | src/pages/Dashboard.js:26-30 | three GETs: KPIs, alerts, cash flow |
| Dashboard.DashboardPage.constructor | src/pages/Dashboard.js:18-21 | no KPIs, no alerts, no cash flow, loading |
| Dashboard.DashboardPage.ApplyLoad | src/pages/Dashboard.js:24-39 | all three slices are set when every fetch succeeded and none otherwise; after a full success the chart shows bars exactly when the series is non-empty and the alerts section exactly when there are alerts; loading ends either way |
| Dashboard.FailedLoadShowsDefaults | src/pages/Dashboard.js:34-36 | when a load failed, the page shows six zero cards, no alerts section and the no-data message |

## Left out

- Rendering: JSX, CSS classes, recharts configuration and the loading texts. The views are modelled only where they decide something: visibility, headings, card values and links.
- HTTP execution through axios, and the backend. A call is a `Request` description plus an `Outcome` input. Network and HTTP errors are one `Failure`.
- Concurrency and timing. The fetch methods do not model:
  - the un-awaited refetch after a create or delete;
  - responses that arrive after unmount or out of order;
  - the stale `pagination` captured by `fetchLogs`.

  A refetch is a separate `ApplyFetch`/`ApplyLoad` step.
- Floating point. Numbers are `real`, and `parseFloat`/`isNaN` results are inputs (`FieldInput`, `Option<real>`). Rounding and the text of `toFixed(2)` are not modelled (`Display.Fixed2` holds the number).
- `Date`, `toISOString`, `toLocaleString` and `toLocaleDateString`. The default invoice date is the constructor's `today` parameter.
- `window.confirm` is the `confirmed` parameter of `UsersPage.Delete`. `window.location.href` is `Browser.location`. `JSON.parse` of the stored user is a function parameter of `CurrentUser`. A malformed entry that makes it throw is not modelled.
- Browser form validation is modelled only as "required fields non-empty". The `type="email"` format check is not modelled.
- `handleItemChange` mutates `newItems[idx]` in place, and that object is shared with the previous draft (a shallow copy). The model is value-based, so it does not capture that aliasing.
- Ids are strings, as the template literals interpolate them. Number-to-string conversion is not modelled.
- The Login and Register pages are not part of this model. `App.js` imports them, but their source is not available.
- `Dashboard.AlertHeading` models `toUpperCase` for ASCII letters only.
- `App.Resolve` normalises a location by ASCII lower-casing and dropping trailing slashes only. Percent-decoding, a router basename and non-ASCII case folding are not modelled. React Router ranks routes instead of trying them in order; `AtMostOneMatch` shows that for this table the two agree.
- `Api.Url` follows axios's URL building (the absolute-URL test, then a join with exactly one slash). The axios version is not part of this model, and options of newer versions that change this, such as `allowAbsoluteUrls`, are not modelled.
- `Invoices.Product` models JavaScript's `*` only on the values the form can store. Text is stored only for input that does not look numeric, so a product with text is NaN.
