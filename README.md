# PeachTree Bank front-end: a verified model of its decision logic

This project models, in Dafny, the logic of the PeachTree Bank React front-end.
The rendering and `fetch` plumbing are left out. What is modelled:

- **Transfer form** (`TransactionForm`): the amount field's character filter and the four checks of the create handler, in their order.
- **`parseFloat`** on the filtered amount, read as an exact decimal prefix.
- **The create form's state** around one POST.
- **Home page** (`HomePage`): the query of the list request, the list controller's `loading` and `transactions` state, the refetch triggers, and the loading, empty or list view.
- **Detail page** (`TransactionDetails`): which transaction it loads, the status selector, and saving the status.
- **Route table and its two guards** (`Routes`), for the app's routes in `App.tsx`.
- **Session** (`AuthContext`): stored under the `user` key through the local-storage hook (`LocalStorage`), with `login`, `logout` and `useAuth`.
- **Login and registration handlers** (`LoginPage`, `RegisterPage`).

Every server exchange is an input value, never I/O: `Response<T> = Ok(body) | NotOk(detail) | Throws(message)`.

- `NotOk` carries the `detail` field of the error body, if the body had one.
- `Throws` stands for a rejected `fetch`.

Each async handler is split at its `await`:

- One method runs up to the request and returns the request it issues: `Submit`, `FetchStart`, `LoadStart`, `SaveStart` or `CreateSubmit`.
- A second method is the continuation and takes the response: `Complete`, `FetchFinish`, `Loaded`, `SaveFinish` or `CreateSettled`.

Overlapping requests therefore finish in whatever order their continuations are called. For the list, the last OK response to arrive decides it; a non-OK or rejected arrival keeps the list. Two status saves in flight behave the same way (`TransactionDetails.OverlappingSaves`).

Modules:

| module | models |
|---|---|
| `Api` | the transaction record, statuses, `Response`, request bodies, the server-detail-or-fallback error text |
| `Decimal` | decimal digit strings and `nat` ↔ decimal text (ids in links and paths) |
| `TransactionForm` | `src/components/TransactionForm.tsx` |
| `HomePage` | `src/components/HomePage.tsx` |
| `TransactionDetails` | `src/components/TransactionDetailsPage.tsx` |
| `Routes` | `src/App.tsx` |
| `LocalStorage` | `src/hooks/useLocalStorage.tsx` |
| `Json` | `JSON.stringify` / `JSON.parse` for the stored session value (`null` or a string) |
| `AuthContext` | `src/contexts/AuthContext.tsx` |
| `LoginPage`, `RegisterPage` | `src/components/LoginPage.tsx`, `src/components/RegisterPage.tsx` |

Behaviour of the code that a reader might not expect:

- **Create form, non-OK response.** The form does not look at the response status. A non-OK response also clears the fields and calls `onSuccess`; only a rejected request shows "Failed to create transaction." (`TransactionForm.Form.Complete`).
- **Saving a status, rejected request.** A rejected save is not caught, so no notice is raised; a non-OK save raises the fixed failure alert, not the server's detail (`TransactionDetails.DetailsPage.SaveFinish`).
- **List controller, failures.** A failed list fetch has no separate error phase: the previous list stays and `loading` ends false (`HomePage.TransactionList.FetchFinish`).
- **Negative amounts.** An amount typed as "-5" never reaches the checks with its sign: the field's filter stores "5", which passes (`TransactionForm.SignIsDropped`).
- **Empty session string.** A stored session that is the empty string counts as signed out, not as "a token is persisted" (`Routes.EmptyUserIsSignedOut`, `LoginPage.LoginForm.Complete`).

## Model

| member | source | states |
|---|---|---|
| Api.ParseStatus | src/components/TransactionDetailsPage.tsx:94 | a status read back from a select value is one whose wire name is exactly that value |
| Api.StatusNameRoundTrip | src/components/TransactionDetailsPage.tsx:94-96 | every status's option value reads back as that status |
| Api.TransactionPath | src/components/TransactionDetailsPage.tsx:38 | the path of a transaction is `/transactions/` followed by decimal digits whose value is the id |
| Api.FailureMessage | src/components/LoginPage.tsx:27-30 | the error is the server's `detail` when present and non-empty, otherwise the fallback; it is never empty when the fallback is not |
| Decimal.ValueOfToString | src/components/HomePage.tsx:95 | the decimal text written for an id is all digits and reads back as that id |
| Decimal.ToStringInjective | src/components/HomePage.tsx:95 | distinct ids are written as distinct texts |
| Decimal.ValuePositiveIff | src/components/TransactionForm.tsx:31 | a digit string has a positive value iff it has a non-zero digit |
| TransactionForm.Sanitise | src/components/TransactionForm.tsx:83 | the filtered amount holds only digits and dots, and keeps every digit and dot of the typed text, each as often as typed |
| TransactionForm.SanitiseAppend | src/components/TransactionForm.tsx:83 | the filter works character by character, so it keeps the order of what it keeps |
| TransactionForm.SanitiseKeepsClean | src/components/TransactionForm.tsx:83-84 | text of digits and dots passes the filter unchanged |
| TransactionForm.SanitiseIdempotent | src/components/TransactionForm.tsx:83-84 | filtering twice is filtering once |
| TransactionForm.NumericPrefixIsLongest | src/components/TransactionForm.tsx:18 | the part `parseFloat` reads is a prefix of the shape `digits* ('.' digits*)?`, and no longer prefix has that shape |
| TransactionForm.ParseFloatNaNIff | src/components/TransactionForm.tsx:18-30 | `parseFloat` of a filtered amount is NaN iff the prefix it reads has no digit |
| TransactionForm.ParseFloatPositiveIff | src/components/TransactionForm.tsx:31-34 | `parseFloat` of a filtered amount is a positive number iff the prefix it reads has a non-zero digit |
| TransactionForm.ParseFloatNonNegative | src/components/TransactionForm.tsx:31-34 | a filtered amount never parses below zero, so the positivity check rejects exactly the zero values |
| TransactionForm.Validate | src/components/TransactionForm.tsx:19-34 | each of the four messages is chosen iff its check is the first to fail, in the order empty, same, NaN, non-positive; acceptance iff all pass, with the parsed positive amount |
| TransactionForm.SignIsDropped | src/components/TransactionForm.tsx:83 | a typed "-5" is filtered to "5" and accepted as 5; a typed "abc" filters to "" and fails the number check |
| TransactionForm.Form.constructor | src/components/TransactionForm.tsx:10-13 | the three fields start empty and there is no error |
| TransactionForm.Form.ChangeFromAccount | src/components/TransactionForm.tsx:67 | only the from-account field changes, to the typed text |
| TransactionForm.Form.ChangeToAccount | src/components/TransactionForm.tsx:74 | only the to-account field changes, to the typed text |
| TransactionForm.Form.ChangeAmount | src/components/TransactionForm.tsx:82-85 | the amount field becomes the filtered text, so it keeps holding only digits and dots |
| TransactionForm.Form.Submit | src/components/TransactionForm.tsx:18-47 | on the first failed check, that check's message is set and nothing is sent; otherwise the error is cleared and exactly one create request with the parsed amount is sent; the fields are untouched |
| TransactionForm.Form.Complete | src/components/TransactionForm.tsx:37-55 | a settled request, OK or not, clears the fields and calls `onSuccess` iff one was supplied; a rejected one sets "Failed to create transaction.", keeps the fields and calls nothing |
| HomePage.QueryParams | src/components/HomePage.tsx:27-32 | the query holds `sort_by` then `order`, then `contractor` iff the search text is non-empty and `date` iff a date is set, with those values, in that order, and no other pair |
| HomePage.DetailsLinkInjective | src/components/HomePage.tsx:95 | distinct transactions link to distinct detail pages |
| HomePage.View | src/components/HomePage.tsx:86-112 | the loading text iff loading; otherwise the empty text iff the list is empty, else one item per transaction in order, linking to its detail page and showing its status and its contractor (the to-account) |
| HomePage.ViewLinksDistinct | src/components/HomePage.tsx:92-95 | two shown items with different ids link to different pages |
| HomePage.TransactionList.constructor | src/components/HomePage.tsx:17-22 | empty list, not loading, sorted by date ascending, no search text and no date; the view shows the empty text |
| HomePage.TransactionList.FetchStart | src/components/HomePage.tsx:24-35 | loading starts, the view shows the loading text, and the request carries the query of the current filters; nothing else changes |
| HomePage.TransactionList.FetchFinish | src/components/HomePage.tsx:36-43 | an OK response replaces the list with the server's array as it is; otherwise the list is kept; loading ends in both cases, so the view is the empty text or the items |
| HomePage.TransactionList.ChangeSortBy | src/components/HomePage.tsx:46-48 | the sort key is set, and a list fetch for the new query starts iff the key changed |
| HomePage.TransactionList.ChangeOrder | src/components/HomePage.tsx:46-48 | the order is set, and a list fetch for the new query starts iff the order changed |
| HomePage.TransactionList.ChangeSearch | src/components/HomePage.tsx:46-48 | the search text is set, and a list fetch for the new query starts iff the text changed |
| HomePage.TransactionList.ChangeDate | src/components/HomePage.tsx:46-48 | the date filter is set, and a list fetch for the new query starts iff the date changed |
| HomePage.TransactionList.CreateSubmit | src/components/HomePage.tsx:54 | submitting the create form runs its checks as the form's own submit step says, and fixes the query of the refetch it may trigger to the filters as they are at submit time |
| HomePage.TransactionList.CreateSettled | src/components/HomePage.tsx:54 | after the create form's POST settles, the form reacts as its continuation says, keeping its error unless the request was rejected; a list fetch with the submit-time query starts iff the request was not rejected, whatever the filters are now |
| HomePage.SortChangeDuringCreate | src/components/HomePage.tsx:24-54 | a valid transfer submitted while sorted by date, a switch to amount, then a successful POST: the refetch asks for the date order while the controls show amount |
| TransactionDetails.StatusOptionsComplete | src/components/TransactionDetailsPage.tsx:16 | the selector offers every status exactly once |
| TransactionDetails.SearchCarriesDigits | src/components/TransactionDetailsPage.tsx:23 | `transaction_id` read from `?transaction_id=<digits>` is exactly those digits |
| TransactionDetails.DetailsLinkLoadsItsTransaction | src/components/TransactionDetailsPage.tsx:23-27 | following a list item's link opens `/details`, and that page loads the path of exactly the transaction the item showed |
| TransactionDetails.View | src/components/TransactionDetailsPage.tsx:53 | only the loading text while no transaction is loaded; otherwise the transaction, the pending status and the three options |
| TransactionDetails.DetailsPage.constructor | src/components/TransactionDetailsPage.tsx:20-23 | nothing loaded, status red, the id taken from the `transaction_id` search parameter, and only the loading text shown |
| TransactionDetails.DetailsPage.LoadStart | src/components/TransactionDetailsPage.tsx:25-27 | the mount effect requests `/transactions/` and the id from the search string (`null` when missing); for the decimal text of an id that is exactly that transaction's path |
| TransactionDetails.DetailsPage.Loaded | src/components/TransactionDetailsPage.tsx:25-34 | an OK load shows the transaction with its status selected and the three options; any other outcome leaves the page as it was |
| TransactionDetails.DetailsPage.SelectStatus | src/components/TransactionDetailsPage.tsx:94-96 | the select's value is one of the option names; the pending status becomes the status of that name, and nothing else changes |
| TransactionDetails.DetailsPage.SaveStart | src/components/TransactionDetailsPage.tsx:36-43 | nothing loaded: no request; otherwise a PUT of the pending status to the shown transaction's path; the page does not change |
| TransactionDetails.DetailsPage.SaveFinish | src/components/TransactionDetailsPage.tsx:44-50 | OK replaces the transaction with the server's copy and raises the success alert; non-OK keeps it and raises the failure alert; a rejection changes nothing and raises nothing; the pending status is never touched |
| TransactionDetails.OverlappingSaves | src/components/TransactionDetailsPage.tsx:36-51 | save yellow, select green, save again, first reply last: both requests go out, the second with green, and the page ends on the first reply |
| Routes.Route | src/App.tsx:16-60 | `/` and `/details` render iff signed in, else go to `/login`; `/login` and `/register` go to `/` iff signed in, else render; any other path goes to `/`; a rendered page is the one its path names |
| Routes.EmptyUserIsSignedOut | src/App.tsx:16-24 | an empty stored user is routed exactly like no user |
| Routes.SettlesWithinTwoRedirects | src/App.tsx:16-60 | from every path, at most two redirects reach a page, and which page is stated for each path and session |
| Routes.RegisteredVisitorLandsOnLogin | src/components/RegisterPage.tsx:37 | after registering without a session, `/` redirects to the login page |
| Json.Encode | src/hooks/useLocalStorage.tsx:15 | the JSON text of `null` or a string is never empty, so it is never read back as a missing entry |
| Json.DecodeEncode | src/hooks/useLocalStorage.tsx:7-15 | parsing what `JSON.stringify` wrote for `null` or a string gives the value back |
| LocalStorage.InitialValue | src/hooks/useLocalStorage.tsx:4-11 | the initial value is the decoded stored text; the default for a missing key, an empty text, a text that does not parse, or a store that cannot be read |
| LocalStorage.ReadBackAfterWrite | src/hooks/useLocalStorage.tsx:7-15 | with a round-tripping codec, a reader of the key initialises to the value last written there |
| LocalStorage.StoredValue.constructor | src/hooks/useLocalStorage.tsx:4-11 | the hook's value starts at the initial value of what the store holds under its key |
| LocalStorage.StoredValue.Set | src/hooks/useLocalStorage.tsx:13-19 | the value becomes the new one even if the write fails; a working store gets its encoding under this key only, a failing one is unchanged |
| AuthContext.JsonRoundTrips | src/contexts/AuthContext.tsx:24 | the JSON codec round-trips every session value and never writes the empty text |
| AuthContext.AuthProvider.constructor | src/contexts/AuthContext.tsx:24 | the user is the stored `user` key read as JSON, defaulting to null |
| AuthContext.AuthProvider.Login | src/contexts/AuthContext.tsx:26-28 | the user becomes exactly the given string, and a working store holds its JSON under `user` |
| AuthContext.AuthProvider.Logout | src/contexts/AuthContext.tsx:30-32 | the user becomes null, and a working store holds `null` under `user` |
| AuthContext.UseAuth | src/contexts/AuthContext.tsx:13-17 | the enclosing provider when there is one; otherwise the error "useAuth must be used within an AuthProvider" |
| AuthContext.RunCalls | src/contexts/AuthContext.tsx:26-32 | after a sequence of `login`/`logout` calls with working writes the user is the one the last call set, the store holds what the calls wrote, and a provider mounted on it afterwards starts at that user |
| AuthContext.StoreAfterTouchesOnlyUser | src/contexts/AuthContext.tsx:26-32 | logins and logouts change no key of the store other than `user` |
| AuthContext.ReloadSeesLastWrite | src/contexts/AuthContext.tsx:24-32 | a provider mounted after successful logins and logouts starts at the user of the last one |
| LoginPage.LoginForm.constructor | src/components/LoginPage.tsx:7-10 | empty fields, no error, not loading |
| LoginPage.LoginForm.Submit | src/components/LoginPage.tsx:14-25 | loading starts, so the submit button (line 69) is disabled; the error is cleared, and the request body is exactly the username and password |
| LoginPage.LoginForm.Complete | src/components/LoginPage.tsx:27-39 | OK: the cookie string becomes the user and the page goes to `/`, replacing history, and the user counts as signed in iff the cookie string is non-empty. Non-OK: the error is the detail or "Invalid credentials" and the session is untouched. Rejected: the error is the rejection's message. Loading ends on every path, which enables the submit button again |
| RegisterPage.RegisterForm.constructor | src/components/RegisterPage.tsx:7-11 | empty fields, no error, not loading |
| RegisterPage.RegisterForm.Submit | src/components/RegisterPage.tsx:14-30 | a request is sent iff the passwords match, with body exactly the username and password; a mismatch sets "Passwords do not match" and ends loading; the submit button (line 86) is disabled iff a request was sent |
| RegisterPage.RegisterForm.Complete | src/components/RegisterPage.tsx:32-42 | OK navigates to `/` without replacing history and without signing in; non-OK sets the detail or "Registration failed"; a rejection sets its message; loading ends on every path, which enables the submit button again |

## Left out

- The forms' HTML constraints are not modelled: `required` on every input, and `min="0"` and `step="0.01"` on the amount, can stop the browser from firing the submit handler at all (for example for empty accounts, or an amount of 0.001). The model calls the handlers directly, as if every submit reached them.
- HTTP itself: URLs, headers, `credentials: 'include'` and decoding response bodies. Each exchange is a `Response` input, and a request is returned as a value.
- The browser's cookie jar: `document.cookie` is a string parameter of `LoginPage.LoginForm.Complete`.
- Overlapping list fetches are not modelled as concurrency. Each `FetchStart`/`FetchFinish` pair is two atomic steps, and interleavings are sequences of such calls.
- React machinery: effect scheduling, re-rendering, JSX and styles. A `useEffect` that re-runs on a dependency change is modelled as the setter starting the fetch itself, only when the value changed.
- `alert`, `console.error`, `navigate` and `window.location.reload` are returned as values (a `Notice`, a `Navigation`, whether `onSuccess` was called) or dropped.
- TransactionForm.Validate: the accepted amount is the exact decimal value. Rounding to a double is not modelled, and neither is underflow: an amount like 0.000…01 with hundreds of zeros would parse to 0 in the browser and be rejected as not positive. Overflow is not modelled either: an amount of about 1.7977e308 or more (above `Number.MAX_VALUE`) parses to `Infinity`, which passes both number checks and is sent as `"amount":null`, where `TransactionForm.Form.Submit` sends the exact value.
- Api.Transaction: an id is an unbounded `nat` written out in full. Ids above 2^53 are not modelled: they arrive rounded to a double, and the template literals that build the list links and the transaction path write that double in its shortest form (2^60 as "1152921504606847000"), and from 1e21 on as "1e+21" and so on.
- TransactionForm.ParseFloat: defined only on filtered text (digits and dots), the only text the field can hold. Signs, exponents, whitespace and `Infinity` never reach it.
- Browser number-input behaviour: how `type="number"` reports its value to the change handler is not modelled; the filter is applied to the text as given.
- Formatting with `toFixed(2)` and `toLocaleDateString` (display only).
- TransactionDetails.SearchParam: no percent-decoding and no `+` decoding.
- A missing `transaction_id` is rendered into the load path as "null", as the template string does. No other malformed id is checked.
- A detail load that fails is not retried; the page stays on the loading text.
- Routes.Route: paths are matched exactly. react-router's case-insensitive matching and trailing slashes are left out.
- Json.Decode: reads only `null` and string literals, the two shapes the session value has. Other JSON values are read as parse errors, where the source would accept them with an unchecked cast. `\u` escapes of surrogate halves are refused rather than paired.
- A server `detail` that is not a string (for example a list of validation errors) is not modelled. `detail` is an optional string. An error body that is the JSON literal `null` is not modelled either: reading `detail` from it throws a TypeError in the source, whose message is then shown, where the model's `NotOk(None)` shows the fallback text.
- `src/components/LogoutButton.tsx`: one POST, then `logout()` only on OK and an alert otherwise. It adds nothing beyond `AuthContext.AuthProvider.Logout`.
- The text inputs' change handlers on the login and registration forms simply assign their fields; the model's fields are public and assigned directly.
