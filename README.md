# QKart storefront: registration validation and the catalog view

This project models the two pieces of decision logic in the QKart React
storefront.

- **The registration form** (`Register.js`). `validateInput` runs five checks
  in a fixed order and stops at the first failure. Each failure has its own
  warning. `register` posts to `/auth/register` only when validation passes.
  The posted body holds only the username and the password. A reply with
  `success` true navigates to `/login`.
- **The catalog view** (`Products.js`). It loads the product list, runs a
  debounced search, rebuilds the cart lines whenever the catalog changes, and
  guards add-to-cart. The guards are: no token, and, when asked for, a product
  that already has a line.

Three modules make up the model:

- `Effects` holds what the views exchange with the outside world. A `Reply`
  is the outcome of an awaited request: the data, or a rejection with or
  without a server response. A `Notice` is one snackbar, with its variant.
- `Register` holds `ValidateInput`, a pure function. Its contract says the
  form is accepted exactly when every check holds. It also says that a
  rejection names a check that fails while every earlier check holds. The
  class `RegisterView` holds `formData` and `isLoading`. It also records the
  request bodies it posted, the snackbars it showed and its navigations.
- `Products` holds `ViewState` and one pure transition per handler. The
  transitions are the specification, and their contracts state the guards
  and what does not change. `Run` replays a sequence of events. The lemmas
  about `Run` state the debounce property: one or more keystrokes followed
  by the quiet period send exactly one search, carrying the last text typed.
  The class `ProductsView` has the component's fields: `products`,
  `filteredProducts`, `search`, `items`, `isLoading`, `pendingSearch`, plus
  the request and snackbar records. Most methods are proved to leave
  `State() == Transition(old(State()), …)`. `DebounceSearch` and
  `PerformSearch` are the two pieces `OnSearchChange` and `TimerFired` are
  built from. Each of the two states its new state as a direct update of
  the old one. `IsItemInCart` is the source's index loop, proved against the
  predicate `InCart`.

These parts of the environment are inputs to the model, not actions it
performs:

- Every HTTP reply is an argument. No request is actually made. A request
  that is "sent" is appended to the `requests` record.
- The token read from local storage is an argument of type `Option<string>`.
  A missing token and the empty string both count as "not logged in", as
  JavaScript truthiness has it.
- The 800 ms debounce timer is the single slot `pendingSearch`. The timer
  firing is the event `TimerFires`, or the method `TimerFired`.
- `generateCartItemsFrom` from `Cart.js` is the function-valued constant
  `reconcile` (called `rec` in the transitions). It is left uninterpreted.
  Its cart argument is `None` where the JavaScript passes `undefined` or
  `null`.

Behaviour of the code worth noting:

- The warnings are the code's own strings, such as "Username must contain
  atleast 6 characters". The doc comment above `validateInput` gives
  different wording.
- A failed search shows no snackbar: it either empties the list (on a 404) or
  keeps it.
- When there is no token, `fetchCart` returns before sending anything. The
  `.then` chain still runs, so the cart lines are rebuilt from no cart data
  (`CartFetchStarted`).
- The guard in `performAPICall`'s catch reads `err.response.data.sucess`.
  That field is always undefined, so the server's message is always shown
  (`ApiCallCompleted`).
- `performAPICall`, `performSearch` and `postData` read `err.response.data`
  or `err.response.status` in their catch blocks. When the request got no
  response, `err.response` is undefined, so that read throws before
  `setLoading(false)` runs. The model treats a reply of `Failed(None)` to
  these handlers as "nothing more happens": `isLoading` stays true.

## Model

| member | source | states |
|---|---|---|
| `Register.ValidateInput` | sivaanish399-ME_QKART_FRONTEND_V2-master/src/components/Register.js:106-134 | accepted iff every check holds; a rejection names a check that fails, and every check ranked before it holds |
| `Register.Message` | sivaanish399-ME_QKART_FRONTEND_V2-master/src/components/Register.js:112-131 | the warning each check shows, in the code's wording; never empty |
| `Register.MessagesAreDistinct` | sivaanish399-ME_QKART_FRONTEND_V2-master/src/components/Register.js:112-131 | each check has its own warning: two checks with the same warning are the same check |
| `Register.FirstFailureIsUnique` | sivaanish399-ME_QKART_FRONTEND_V2-master/src/components/Register.js:112-132 | if check k fails and every earlier check holds, the validator reports exactly k: the checks short-circuit in order |
| `Register.AcceptedIffConjunction` | sivaanish399-ME_QKART_FRONTEND_V2-master/src/components/Register.js:106-134 | accepted iff username non-empty and at least 6 long, both passwords non-empty, password at least 6 long, and the two passwords equal |
| `Register.EmptyUsernameIsRequiredFailure` | sivaanish399-ME_QKART_FRONTEND_V2-master/src/components/Register.js:112-115 | an empty username is reported as "Username is a required field", not as too short |
| `Register.ShortUsernameIsLengthFailure` | sivaanish399-ME_QKART_FRONTEND_V2-master/src/components/Register.js:117-120 | a non-empty username shorter than 6 gets the length failure |
| `Register.EmptyConfirmationIsRequiredFailure` | sivaanish399-ME_QKART_FRONTEND_V2-master/src/components/Register.js:121-124 | with a valid username, an empty confirmPassword fails the "required" check, whatever the password |
| `Register.MismatchReportedOnlyAfterEarlierChecks` | sivaanish399-ME_QKART_FRONTEND_V2-master/src/components/Register.js:125-131 | "Passwords do not match" is reported iff the username and password checks pass and the passwords differ |
| `Register.AcceptedConfirmationIsLongEnough` | sivaanish399-ME_QKART_FRONTEND_V2-master/src/components/Register.js:125-132 | an accepted form has a confirmPassword of length at least 6 |
| `Register.RegisterView.constructor` | sivaanish399-ME_QKART_FRONTEND_V2-master/src/components/Register.js:16-23 | the form starts with three empty fields, no spinner, and nothing sent, shown or navigated |
| `Register.RegisterView.HandleChange` | sivaanish399-ME_QKART_FRONTEND_V2-master/src/components/Register.js:25-28 | the named field takes the new value; the other fields and all other state are unchanged |
| `Register.RegisterView.Register` | sivaanish399-ME_QKART_FRONTEND_V2-master/src/components/Register.js:56-60 | a request is posted iff ValidateInput accepts the form; a rejection adds only the failing check's warning |
| `Register.RegisterView.PostData` | sivaanish399-ME_QKART_FRONTEND_V2-master/src/components/Register.js:62-70 | the spinner goes on and one body is posted, holding the form's username and password unchanged, without confirmPassword |
| `Register.RegisterView.PostDataCompleted` | sivaanish399-ME_QKART_FRONTEND_V2-master/src/components/Register.js:70-85 | a reply with success true shows "Registered successfully" and navigates to /login exactly once; other replies never navigate; a rejection shows the server's or the generic message; a rejection without a response changes nothing |
| `Products.HasToken` | sivaanish399-ME_QKART_FRONTEND_V2-master/src/components/Products.js:154 | the `!token` test: a missing token (null) and the empty string mean not logged in; any non-empty token counts |
| `Products.IsItemInCart` | sivaanish399-ME_QKART_FRONTEND_V2-master/src/components/Products.js:184-191 | true iff some index has a line with that productId; false on an empty list |
| `Products.ApiCallStarted` | sivaanish399-ME_QKART_FRONTEND_V2-master/src/components/Products.js:76-80 | the spinner is on and GET /products is sent; nothing else changes |
| `Products.ApiCallCompleted` | sivaanish399-ME_QKART_FRONTEND_V2-master/src/components/Products.js:80-89 | success sets products and filteredProducts to the same list; a failure keeps both and shows the server's message; the spinner ends off unless there was no response |
| `Products.SearchTyped` | sivaanish399-ME_QKART_FRONTEND_V2-master/src/components/Products.js:142-147 | a keystroke replaces any pending search by one for the new text and sends no request |
| `Products.DebounceElapsed` | sivaanish399-ME_QKART_FRONTEND_V2-master/src/components/Products.js:109-114 | the pending timer fires: exactly one search request for its text, the slot empties and the spinner is on; with no pending timer nothing changes |
| `Products.SearchCompleted` | sivaanish399-ME_QKART_FRONTEND_V2-master/src/components/Products.js:115-122 | a list replaces filteredProducts; a 404 empties it; another status keeps it; no snackbar; the spinner ends off unless there was no response |
| `Products.CartFetchStarted` | sivaanish399-ME_QKART_FRONTEND_V2-master/src/components/Products.js:153-162 | with no token no request is sent and the lines are rebuilt from no data; with a token GET /cart is sent and the lines are kept |
| `Products.CartFetchCompleted` | sivaanish399-ME_QKART_FRONTEND_V2-master/src/components/Products.js:162-182 | the lines become the reconciliation of the returned cart with the catalog, or of no data on failure; a failure shows the server's message on 400, the generic one otherwise |
| `Products.CartAdded` | sivaanish399-ME_QKART_FRONTEND_V2-master/src/components/Products.js:193-233 | a POST is sent iff there is a token and the duplicate guard does not fire; without one the lines are unchanged and a warning is shown; success makes the lines the reconciled server cart; failure keeps them; nothing but lines, requests and snackbars changes |
| `Products.CatalogAdd` | sivaanish399-ME_QKART_FRONTEND_V2-master/src/components/Products.js:315-319 | CartAdded with quantity 1 and preventDuplicate true: a logged-in user's product with no line yet is posted with quantity 1; without a token nothing is posted |
| `Products.CatalogAddNeverDuplicates` | sivaanish399-ME_QKART_FRONTEND_V2-master/src/components/Products.js:313-319 | the catalog button, which asks for the duplicate guard, never posts a product that already has a line, and keeps the lines |
| `Products.QuantityChangeSendsEvenIfInCart` | sivaanish399-ME_QKART_FRONTEND_V2-master/src/components/Products.js:199-222 | without preventDuplicate the request is sent for a logged-in user even when the product already has a line |
| `Products.RunAppend` | sivaanish399-ME_QKART_FRONTEND_V2-master/src/components/Products.js:140-147 | helper for the debounce trace lemmas, about the model's replay: replaying two event sequences one after the other is replaying their concatenation |
| `Products.TypingKeepsOnlyLatest` | sivaanish399-ME_QKART_FRONTEND_V2-master/src/components/Products.js:140-147 | after one or more keystrokes no request was sent and exactly one search is pending, for the last text; nothing else changes |
| `Products.DebounceSendsOneSearch` | sivaanish399-ME_QKART_FRONTEND_V2-master/src/components/Products.js:140-147 | keystrokes followed by the timer send exactly one search request, carrying the last text typed |
| `Products.ProductsView.constructor` | sivaanish399-ME_QKART_FRONTEND_V2-master/src/components/Products.js:34-37 | empty catalog, empty displayed set, empty search, no lines, no spinner, no pending timer |
| `Products.ProductsView.PerformAPICall` | sivaanish399-ME_QKART_FRONTEND_V2-master/src/components/Products.js:76-80 | the fields follow ApiCallStarted |
| `Products.ProductsView.PerformAPICallCompleted` | sivaanish399-ME_QKART_FRONTEND_V2-master/src/components/Products.js:80-89 | the fields follow ApiCallCompleted |
| `Products.ProductsView.DebounceSearch` | sivaanish399-ME_QKART_FRONTEND_V2-master/src/components/Products.js:142-147 | the one pending slot holds the new text, whatever it held before; nothing else changes |
| `Products.ProductsView.OnSearchChange` | sivaanish399-ME_QKART_FRONTEND_V2-master/src/components/Products.js:253-256 | the fields follow SearchTyped |
| `Products.ProductsView.TimerFired` | sivaanish399-ME_QKART_FRONTEND_V2-master/src/components/Products.js:146 | the fields follow DebounceElapsed |
| `Products.ProductsView.PerformSearch` | sivaanish399-ME_QKART_FRONTEND_V2-master/src/components/Products.js:109-114 | the spinner goes on and one search request for the text is sent; nothing else changes |
| `Products.ProductsView.PerformSearchCompleted` | sivaanish399-ME_QKART_FRONTEND_V2-master/src/components/Products.js:115-122 | the fields follow SearchCompleted |
| `Products.ProductsView.FetchCart` | sivaanish399-ME_QKART_FRONTEND_V2-master/src/components/Products.js:153-162 | the fields follow CartFetchStarted |
| `Products.ProductsView.FetchCartCompleted` | sivaanish399-ME_QKART_FRONTEND_V2-master/src/components/Products.js:162-182 | the fields follow CartFetchCompleted |
| `Products.ProductsView.AddToCart` | sivaanish399-ME_QKART_FRONTEND_V2-master/src/components/Products.js:193-233 | the fields follow CartAdded; the duplicate check is the IsItemInCart loop |
| `Products.ProductsView.AddFromCatalog` | sivaanish399-ME_QKART_FRONTEND_V2-master/src/components/Products.js:315-319 | the fields follow CartAdded with quantity 1 and the duplicate guard on |

## Left out

- The HTTP calls (axios), the request URLs and the `Authorization` header. A request is recorded as a value; its reply is an input.
- Local storage. The token is an input.
- Snackbar rendering. The model records only each message and its variant.
- Routing, except the recorded navigation to `/login` with the state `from: "Register"`.
- Real timer behaviour (`setTimeout`, `clearTimeout`, 800 ms). The single `pendingSearch` slot stands for it.
- Interleaving of in-flight requests. Completions are separate events that may come in any order, and nothing ties a completion to the request it answers. The stale-result hazard is therefore not analysed. The products a completion reconciles with are the current ones, not the ones the closure captured.
- Products.CartAdded: the POST and its reply are one step. Nothing else can happen between them.
- Products.CartAdded: the guards read the view's current `items`. The source reads the `items` argument captured when the card was rendered.
- `generateCartItemsFrom` and the rest of `Cart.js` (line subtotals, dropping unknown products) are not part of this model. The function is uninterpreted.
- `Header.js`, `ProductCard.js` and all JSX rendering are view code with no decisions to model.
- The `register` button is hidden while `isLoading` is true. The model does not forbid calling `Register` while a request is in flight.
- String lengths are lengths of `seq<char>`. JavaScript's `.length` counts UTF-16 code units, so the two differ for characters outside the Basic Multilingual Plane.
- `Login.js` and the login endpoint are not part of this model.
