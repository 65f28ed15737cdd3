# IFDS dashboard client — a Dafny model

IFDS (an inventory and fraud detection system) has a React dashboard, and this
project models the client-side logic at its core:

- **Session.** The browser's `localStorage` holds the session as two keys:
  `token` (the raw access token) and `user` (the JSON text of the user record).
  Login writes both keys and logout removes both.
- **API client.** One axios instance has a JSON `Content-Type`. A request
  interceptor adds `Authorization: Bearer <token>` whenever a non-empty token is
  stored. The table of exported endpoint functions maps each one to a fixed HTTP
  method and path.
- **Role gate.** The `RoleBasedAccess` wrapper shows its children only when the
  stored user's role is in the allowed list.
- **Page handlers.** The model covers the form submissions, loads and
  mutate-then-reload handlers of the login, register, inventory, transactions,
  fraud alerts and reports pages, plus the navbar's logout.

A handler that awaits the backend takes the settled call as a parameter:
`Outcome<T>` is `Ok(data)` or `Err(server message, if any)`. Browser dialogs
are parameters too: the answer to `confirm` or `prompt` comes in, and the text
for `alert` and the target of `navigate` come out as results. Each page is a
class whose fields are its React state. Where the intermediate state of a
handler can be observed while the request is in flight, the handler is split at
its `await` into a `Begin…` and a `Complete…` method. Examples are the loading
flag of login and register, and the selected report.

Modules:

- `Outcomes`: the `Option` and `Outcome` types, and the `err.response?.data?.error || fallback` rule.
- `JsString`: the string built-ins the pages use, meaning `replace` with a string or a global pattern, ASCII `toUpperCase`, and the UTF-16 `length`.
- `Storage`: `localStorage`, the user record and its JSON codec.
- `Api`: the interceptor and the endpoint table, with a parser that reads a request back into its endpoint.
- `RoleBasedAccess`, `Login`, `Register`, `Navbar`, `Inventory`, `Transactions`, `FraudAlerts` and `Reports`: one module per source file.

The code does not do the following, and the model follows the code:

- No 403-specific message: every failure shows the server's message or the page's fallback.
- The review prompt accepts empty notes.
- No client-side role check happens before a review.
- The report file name has no date in it.
- An empty list of allowed roles hides the content from everyone, and an absent `allowedRoles` prop is not read as "any role": `includes` on it throws a `TypeError` for a signed-in user, which the model records as `RolesMissing`.
- A corrupt stored user is not handled gracefully: `JSON.parse` throws, which the model records as `ParseError`.

## Model

| member | source | states |
|---|---|---|
| Outcomes.ErrorText | src/pages/login.js:32-34 | A non-empty server message is shown as it is. A missing or empty one is replaced by the page's fallback. A non-empty fallback therefore never produces an empty message. |
| JsString.IndexOf | src/pages/transactions.js:161 | Gives -1 exactly when the character is absent. Otherwise it gives the first index holding the character, with no earlier occurrence. |
| JsString.IndexOfIsFirst | src/pages/transactions.js:161 | An occurrence with no earlier occurrence is the index `indexOf` finds. |
| JsString.ReplaceFirst | src/pages/transactions.js:161 | `replace` with a string pattern keeps the length and changes only the character at the first occurrence. |
| JsString.ReplaceFirstKeepsLater | src/pages/transactions.js:161 | Any later occurrence of the pattern survives `replace`. |
| JsString.ReplaceAll | src/pages/fraudalerts.js:85 | `replace` with a global pattern keeps the length and changes exactly the matching characters. |
| JsString.ReplaceAllRemovesAll | src/pages/fraudalerts.js:85 | After a global replace with a different character, no occurrence is left. |
| JsString.ToUpperAscii | src/pages/transactions.js:161 | `toUpperCase`, restricted to ASCII: each character is upper-cased in place and the length is kept. |
| JsString.Utf16Length | src/pages/register.js:30 | The UTF-16 length lies between the character count and twice that count. It equals the character count for BMP-only text. |
| JsString.Utf16Char | src/pages/register.js:30 | One character has length 2 outside the Basic Multilingual Plane and 1 inside it. |
| JsString.Utf16Concat | src/pages/register.js:30 | The length of a concatenation is the sum of the lengths. With `Utf16Char`, this fixes the exact code-unit count of every string. |
| Storage.Get | src/services/api.js:17 | `getItem` is `null` exactly when the key is missing, and otherwise returns the stored value. |
| Storage.LocalStorage.constructor | src/pages/login.js:26-27 | Storage starts with the given items. |
| Storage.LocalStorage.SetItem | src/pages/login.js:26-27 | `setItem` maps the key to the value and leaves every other key as it was. |
| Storage.LocalStorage.RemoveItem | src/components/navbar.js:12-13 | `removeItem` removes exactly that key. |
| Api.Authorize | src/services/api.js:15-22 | A non-empty token adds `Bearer <token>` under `Authorization`. A missing or empty token leaves the headers unchanged. No other header is touched. |
| Api.OutgoingHeaders | src/services/api.js:7-22 | Every request carries the JSON `Content-Type`. It carries `Authorization` exactly when a non-empty token is stored, and its value is `Bearer` and the token. No request is refused for lack of a token. |
| Api.RequestConfig.constructor | src/services/api.js:7-12 | A request starts with its endpoint's route and the instance's default headers. |
| Api.RequestConfig.Intercept | src/services/api.js:15-22 | The interceptor's in-place update of the headers is the `Authorize` function of the stored token. |
| Api.Send | src/services/api.js:15-63 | An endpoint call puts its table route on the wire, with the headers left by the interceptor. |
| Api.RouteOf | src/services/api.js:29-63 | The endpoint table. A request has a body exactly when it is a POST or a PUT, and every path is absolute. `RouteRoundTrip` and `RouteInjective` prove that each endpoint has its own method and path. |
| Api.ParseInventoryGet | src/services/api.js:34-40 | Reads back the inventory GET endpoints from the text after `/inventory/`. Every answer is well formed and issues that very path. |
| Api.ParseTransactionsGet | src/services/api.js:43-47 | The same read-back for the transactions GET paths. |
| Api.ParseFraudGet | src/services/api.js:50-54 | The same read-back for the fraud GET paths. |
| Api.ParseReportsGet | src/services/api.js:57-63 | The same read-back for the report paths. |
| Api.ParseGet | src/services/api.js:29-63 | Any endpoint it reads back from a GET path issues exactly that path. |
| Api.ParsePost | src/services/api.js:29-46 | Any endpoint it reads back from a POST path and body issues exactly that request. |
| Api.ParsePut | src/services/api.js:37-52 | Any endpoint it reads back from a PUT path and body issues exactly that request. |
| Api.ParseDelete | src/services/api.js:38 | Any endpoint it reads back from a DELETE path issues exactly that request. |
| Api.ParseRoute | src/services/api.js:29-63 | Any endpoint it reads back from a request issues exactly that request. |
| Api.IdIsNotAName | src/services/api.js:35-40 | A numeric record id never equals a fixed path segment such as `low-stock`, `statistics`, `pending-count` or `search?q=…`. |
| Api.ParseGetInventory | src/services/api.js:34-40 | A GET path under `/inventory/` is read back by the inventory parser. |
| Api.ParseGetTransactions | src/services/api.js:43-47 | A GET path under `/transactions/` is read back by the transactions parser. |
| Api.ParseGetFraud | src/services/api.js:50-54 | A GET path under `/fraud/` is read back by the fraud parser. |
| Api.ParseGetReports | src/services/api.js:57-63 | A GET path under `/reports/` is read back by the reports parser. |
| Api.AuthRoundTrip | src/services/api.js:29-31 | Login, register and profile requests read back as themselves, body included. |
| Api.InventoryRoundTrip | src/services/api.js:34-40 | The seven inventory endpoints read back as themselves, for numeric ids and any search text. |
| Api.TransactionsRoundTrip | src/services/api.js:43-47 | The five transaction endpoints read back as themselves. |
| Api.FraudRoundTrip | src/services/api.js:50-54 | The fraud GET endpoints read back as themselves, for numeric ids. |
| Api.ReviewRoundTrip | src/services/api.js:52 | `PUT /fraud/{id}/review` reads back as the review of that id, with that body. |
| Api.ReportsRoundTrip | src/services/api.js:57-63 | The seven report endpoints read back as themselves. |
| Api.RouteRoundTrip | src/services/api.js:29-63 | Reading back the request of any well-formed endpoint gives that endpoint. So each endpoint has one fixed method and path. |
| Api.RouteInjective | src/services/api.js:29-63 | Two different well-formed endpoints never issue the same request. |
| Api.UnencodedIdsAlias | src/services/api.js:35-40 | Ids are interpolated without encoding, so the non-numeric ids `low-stock`, `search?q=x` and `statistics` issue the same request as another endpoint. |
| RoleBasedAccess.Render | src/components/RoleBasedAccess.js:8-24 | Nothing is shown without a non-empty stored user. A stored text that is not JSON throws. An absent `allowedRoles` prop throws for a signed-in user whose record parses. The children are shown, unchanged, exactly when the parsed role is in the given list. |
| RoleBasedAccess.EmptyRolesHide | src/components/RoleBasedAccess.js:19-23 | An empty allowed list never shows the children. |
| RoleBasedAccess.OnlyRoleMatters | src/components/RoleBasedAccess.js:15-23 | Two sessions whose stored users have the same role render the same. |
| RoleBasedAccess.StoredUserDecides | src/components/RoleBasedAccess.js:8-24 | When the stored text is the JSON of a user record, a gate with a role list never throws, and it shows the children exactly to an allowed role. Without the prop, it throws. |
| Login.CredentialsBody | src/pages/login.js:8-11 | The login body is the username and the password, and nothing else. |
| Login.SessionAfterLogin | src/pages/login.js:26-27 | Login stores the token and the user's JSON. Both keys are then present, so the session is consistent. No other key changes. |
| Login.LoginGrantsRole | src/pages/login.js:26-27 | After login, a role gate shows its children exactly when the user's role is allowed. |
| Login.LoginPage.constructor | src/pages/login.js:8-13 | Empty credentials, no error, not loading. |
| Login.LoginPage.Edit | src/pages/login.js:54-67 | The inputs change only the credentials. |
| Login.LoginPage.BeginSubmit | src/pages/login.js:16-22 | The error is cleared, loading starts, and the login request carries the credentials. |
| Login.LoginPage.CompleteSubmit | src/pages/login.js:21-37 | Success stores the session and navigates to `/dashboard`. Failure leaves storage untouched, does not navigate, and shows the server's message or the fallback. Loading ends either way. |
| Login.LoginPage.HandleSubmit | src/pages/login.js:16-38 | The whole submit, composed as above, keeps a consistent session consistent. |
| Navbar.ClearSession | src/components/navbar.js:11-15 | Logout leaves neither session key and touches no other key. |
| Navbar.ClearSessionIdempotent | src/components/navbar.js:11-15 | Logging out twice is the same as logging out once. |
| Navbar.LogoutHidesGatedContent | src/components/navbar.js:12-13 | After logout every role gate shows nothing and none throws, with or without its roles prop. |
| Navbar.HandleLogout | src/components/navbar.js:11-15 | Removes the token, then the user, then navigates to `/login`. |
| Register.RoleOptionsDistinct | src/pages/register.js:134-136 | The three options give three different roles, all selectable. |
| Register.Validate | src/pages/register.js:23-33 | A mismatch is reported exactly when the passwords differ. Too short is reported exactly when they match and the UTF-16 length is under 8. Otherwise nothing is reported. |
| Register.MismatchReportedFirst | src/pages/register.js:24-33 | A short, mismatched password reports the mismatch. |
| Register.Payload | src/pages/register.js:38-43 | The request carries username, email, password and role, and never `confirmPassword`. |
| Register.RegisterPage.constructor | src/pages/register.js:8-16 | The form is empty with the role `staff`. |
| Register.RegisterPage.EditText | src/pages/register.js:70-111 | The text inputs keep the role, so it stays selectable. |
| Register.RegisterPage.ChooseRole | src/pages/register.js:123-136 | The select sets only the role, and always to a selectable one. |
| Register.RegisterPage.BeginSubmit | src/pages/register.js:19-43 | A failed check sets its message, sends nothing and does not start loading. Otherwise the error is cleared, loading starts and the register request is sent. |
| Register.RegisterPage.CompleteSubmit | src/pages/register.js:44-53 | Success brings a notice and navigation to `/login`. Failure shows the server's message or the fallback. Loading ends either way. |
| Register.RegisterPage.HandleSubmit | src/pages/register.js:19-54 | The whole submit, composed as above. The answer is consulted only when a request was sent. |
| Inventory.LowStockBadges | src/pages/inventory.js:167 | A card shows the low-stock badge exactly when its quantity is at most its reorder level. |
| Inventory.ItemFormBody | src/pages/inventory.js:11-19 | The add request carries the seven form fields under their names. |
| Inventory.InventoryPage.constructor | src/pages/inventory.js:8-19 | The list is empty, loading is on, the form is hidden and empty. |
| Inventory.InventoryPage.LoadInventory | src/pages/inventory.js:25-34 | Only a successful load replaces the list. Loading ends either way. |
| Inventory.InventoryPage.ToggleAddForm | src/pages/inventory.js:77 | The button flips the form's visibility and nothing else. |
| Inventory.InventoryPage.CancelAddForm | src/pages/inventory.js:142 | Cancel hides the form and keeps its fields. |
| Inventory.InventoryPage.EditNewItem | src/pages/inventory.js:92-138 | The inputs change only the form. |
| Inventory.InventoryPage.HandleAddItem | src/pages/inventory.js:36-55 | Success hides and empties the form, reloads the list and shows the success notice. Failure changes nothing and shows the server's message or the fallback. |
| Inventory.InventoryPage.HandleDelete | src/pages/inventory.js:57-67 | Without confirmation nothing is sent and nothing changes. With it, the delete of that id is sent. Success reloads the list. Failure keeps the list and shows the server's message or the fallback. |
| Transactions.FormBody | src/pages/transactions.js:18-23 | The request carries the four form fields under their names. |
| Transactions.TypeEndpoint | src/pages/transactions.js:45-51 | Each of the three types sends its own endpoint. Any other type sends nothing. |
| Transactions.TypeLabel | src/pages/transactions.js:161 | The label upper-cases the type and turns only its first underscore into a space. |
| Transactions.LabelIs | src/pages/transactions.js:161 | A label can be read character by character from the first underscore's position. |
| Transactions.StockInLabel | src/pages/transactions.js:161 | `stock_in` is labelled `STOCK IN`. |
| Transactions.StockOutLabel | src/pages/transactions.js:161 | `stock_out` is labelled `STOCK OUT`. |
| Transactions.WasteLabel | src/pages/transactions.js:161 | `waste` is labelled `WASTE`. |
| Transactions.LaterUnderscoreKept | src/pages/transactions.js:161 | A second underscore stays in the label. |
| Transactions.TransactionsPage.constructor | src/pages/transactions.js:14-23 | The lists are empty, the type is `stock_in` and the form is empty. |
| Transactions.TransactionsPage.ChooseType | src/pages/transactions.js:88-107 | A type button sets one of the three known types and nothing else. |
| Transactions.TransactionsPage.EditForm | src/pages/transactions.js:114-145 | The inputs change only the form. |
| Transactions.TransactionsPage.LoadData | src/pages/transactions.js:29-40 | Both lists are replaced when both loads succeed, and neither is replaced otherwise. |
| Transactions.TransactionsPage.HandleSubmit | src/pages/transactions.js:42-64 | The selected type's request is sent, and one always is while the type is a known one. Success empties the form and reloads both lists. Failure keeps everything and shows the server's message or the fallback. |
| FraudAlerts.StatusValuesDistinct | src/pages/fraudalerts.js:101-116 | The two review statuses differ, and neither is `pending`. |
| FraudAlerts.ReviewActions | src/pages/fraudalerts.js:101-118 | Both review buttons appear on a pending alert, and none on any other. |
| FraudAlerts.ReviewBody | src/pages/fraudalerts.js:36 | The review sends exactly the status and the notes. |
| FraudAlerts.AlertTypeLabel | src/pages/fraudalerts.js:85 | Every underscore becomes a space, every other character is kept, and no underscore is left. |
| FraudAlerts.AlertTypeLabelIdempotent | src/pages/fraudalerts.js:85 | Applying the title rule twice is the same as once. |
| FraudAlerts.SeverityBadge | src/pages/fraudalerts.js:88 | Each character is upper-cased in place, so the badge has no lower-case ASCII letter. Every other character is kept. |
| FraudAlerts.NoticesDistinct | src/pages/fraudalerts.js:36-41 | The success notice names the status and differs from the failure message. |
| FraudAlerts.FraudAlertsPage.constructor | src/pages/fraudalerts.js:8-10 | No alerts, no statistics, loading. |
| FraudAlerts.FraudAlertsPage.LoadData | src/pages/fraudalerts.js:16-29 | Alerts and statistics are replaced together only when both loads succeed. Loading ends either way. |
| FraudAlerts.FraudAlertsPage.HandleReview | src/pages/fraudalerts.js:31-42 | A cancelled prompt sends nothing and changes nothing. Any answer, the empty one included, sends the review of that id. Success reloads and names the status. Every failure shows the same message and changes nothing. |
| Reports.ReportIds | src/pages/reports.js:18-24 | The ids taken from the cards are exactly `daily`, `weekly-fraud`, `monthly`, `waste` and `low-stock`, in grid order. |
| Reports.ReportIdsDistinct | src/pages/reports.js:18-24 | There are five ids and they are pairwise distinct. |
| Reports.ReportEndpoint | src/pages/reports.js:31-49 | `daily` fetches the daily inventory, `weekly-fraud` the weekly fraud summary, `monthly` the monthly analytics, `waste` the waste analysis and `low-stock` the low-stock alert. Any other id fetches nothing. Each fetch is a body-less GET under `/reports/`. |
| Reports.OfferedIdsFetch | src/pages/reports.js:18-49 | An id fetches a report exactly when one of the cards offers it. |
| Reports.ReportEndpointInjective | src/pages/reports.js:31-46 | Different ids never fetch the same report. |
| Reports.DownloadName | src/pages/reports.js:65 | The file name is the selected id followed by `-report.json`, or `null` when nothing is selected. There is no other component. |
| Reports.DownloadNamesDistinct | src/pages/reports.js:65 | Different ids download under different names. |
| Reports.ReportsPage.constructor | src/pages/reports.js:14-16 | Nothing selected, no data, not loading. |
| Reports.ReportsPage.BeginGenerate | src/pages/reports.js:26-28 | Loading starts and the id becomes the selection before the fetch. The old data stays, and the result panel (reports.js:94) is hidden while loading. |
| Reports.ReportsPage.CompleteGenerate | src/pages/reports.js:29-56 | The data is replaced only by a request that was sent and succeeded. An unknown id or a failure shows the failure notice and keeps the data. Loading ends either way. |
| Reports.ReportsPage.GenerateReport | src/pages/reports.js:26-57 | The whole handler, composed as above. The selection is the requested id even when the fetch fails. Afterwards the result panel shows exactly when there is data, including data from an earlier report. |
| Reports.ReportsPage.DownloadReport | src/pages/reports.js:59-67 | The file is named after the current selection and holds the current data. |
| Reports.MislabelledDownload | src/pages/reports.js:26-67 | A failed report after a successful one is downloaded under the failed report's name, with the earlier report's content. |

## Left out

- Rendering: JSX, CSS, icons and layout. Only the conditions that decide what is shown are kept, such as the badges, review buttons, notes, result panel and labels.
- The axios transport: base URL joining (`REACT_APP_API_URL` or `/api`), HTTP itself and response parsing. A settled call is an `Outcome` parameter. The interceptor's error handler only re-rejects, so it has no counterpart.
- Concurrency: `Promise.all` is modelled by its outcome only (both loads succeed or the pair fails). The order in which React applies state updates is not modelled. A reload after a mutation is not awaited in the source; the model applies its answer inside the handler.
- `JSON.stringify` / `JSON.parse` of the user record: a codec parameter. Lemmas that need round-tripping require it to be faithful. The report download's JSON text and `Blob` are not modelled: the download yields the data itself.
- JsString.ToUpperAscii: upper-cases ASCII letters only, because Unicode case mapping is not modelled.
- The browser APIs `alert`, `prompt`, `confirm` and `navigate`: answers are parameters and texts or targets are results. Console logging is left out.
- HTML form validation (`required`, `type="email"`, `minLength`) runs in the browser before the handlers and is not modelled.
- Inventory.LowStockBadges: quantities are the backend's JSON numbers, modelled as `real`, and floating-point rounding is not modelled. JavaScript's `<=` would read a null `reorder_level` as 0 (the form field is optional, inventory.js:121-125) and would compare two numeric strings character by character. The model assumes the backend sends both fields as numbers.
- The transactions page's view/record tab switch (`activeTab`) only selects what is rendered, and is left out.
- The navbar's display of the user's name and role is rendering only.
- `src/pages/dashboard.js` and `src/components/sidebar.js` are not part of this model: they only display counters and highlight links.
- `src/App.js` and its route guard are not part of this model: App.js only composes routes, and the route guard it imports is not among the source files.
