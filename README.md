# Storefront client model

A Dafny model of the browser side of a Next.js storefront that talks to a
Laravel REST API. The model covers:

- the shared HTTP client (`lib/api.ts`): the endpoint table, `setAuthToken`, and the request and response interceptors;
- the two zustand stores (`lib/store.ts`);
- the sign-in and sign-up pages, in both the App Router (`app/login`, `app/register`) and Pages Router (`pages/login.js`, `pages/register.tsx`) versions;
- the two product listings (`app/products/page.tsx`, `pages/products.tsx`).

The client's persistent state is a value, `Api.ClientState`. It holds the
default `Authorization` header, `localStorage`, and the location of a
full-page navigation. Each operation is a pure transition on it:

- `WithToken` for `setAuthToken`;
- `WithItem` for `localStorage.setItem`;
- `AfterResponse` for the response interceptor;
- `Send` for the request config the interceptors hand to axios's adapter: the default headers merged in, then the request interceptor.

The class `Api.ApiClient` holds that state in fields. Its methods are proved
to perform exactly these transitions.

Each page is a class whose fields are the component's `useState` variables.
Its handler methods take the server's answer (`Api.Outcome`) as an input.
They are proved to leave:

- the request sent: `Send` of the client state before the call;
- the client state: `AuthForms.ClientAfterAuth` or `Api.AfterResponse`;
- the page fields: each page's `Answered` predicate, or explicit postconditions.

The JavaScript semantics the pages rely on are modelled in `JsText` and
`Json`:

- `trim` and the `\s` class share the ECMAScript whitespace set;
- `length` counts UTF-16 code units;
- `join`;
- template-literal integers;
- optional chaining (`?.`) and truthiness.

The e-mail regular expression is modelled twice. `AuthForms.IsValidEmail` is
a scan. `AuthForms.MatchesEmailPattern` is the pattern as a decomposition.
The two are proved equivalent.

`Variants` relates the duplicated pages: where the two listings, and the two
ways of reading a validation error, agree and where they differ.

`handleRegister` checks the password's length before comparing it with its
confirmation. So a short password that also differs from its confirmation
("abc" and "xyz") is reported as too short
(`AppRegister.ShortPasswordReportedBeforeMismatch`).

## Model

| member | source | states |
|---|---|---|
| Api.RouteOf | lib/api.ts:84-118 | Every helper's route is an absolute path (starts with `/`) |
| Api.RouteOfParses | lib/api.ts:84-118 | The endpoint table reads back: parsing the verb and path of any helper gives that helper, id included |
| Api.RouteOfInjective | lib/api.ts:84-118 | No two helpers (or ids) share a verb and path |
| Api.IdAfterRendered | lib/api.ts:94-116 | A path made of a prefix and a rendered id reads back as that id |
| Api.CategoryByIdParses | lib/api.ts:94 | `GET /categories/${id}` parses back to `categoriesAPI.getById(id)` |
| Api.ProductByIdParses | lib/api.ts:100 | `GET /products/${id}` parses back to `productsAPI.getById(id)`, not to the category routes |
| Api.ProductsByCategoryParses | lib/api.ts:101 | `GET /products/category/${id}` parses back to `productsAPI.getByCategory(id)` |
| Api.CartItemParses | lib/api.ts:108-109 | `PUT` and `DELETE /cart/${id}` parse back to `cartAPI.update(id)` and `cartAPI.remove(id)` |
| Api.OrderByIdParses | lib/api.ts:116 | `GET /orders/${id}` parses back to `ordersAPI.getById(id)` |
| Api.StoredBearer | lib/api.ts:26-28 | A bearer header exists exactly when a non-empty token is stored, and it is `Bearer ` followed by that token |
| Api.TokenWritten | lib/api.ts:13-21 | A truthy token is stored under "token"; otherwise that key is removed; every other key is untouched |
| Api.WithToken | lib/api.ts:13-21 | `setAuthToken` sets or deletes both the default header and the stored token; the two agree afterwards; navigation is untouched |
| Api.WithTokenIdempotent | lib/api.ts:13-21 | Setting the same token twice equals setting it once |
| Api.WithItem | app/login/page.tsx:80 | `setItem` binds the key and leaves every other key, the header and navigation alone; a key other than "token" keeps the client coherent |
| Api.AfterResponse | lib/api.ts:38-50 | A success or a non-401 failure changes nothing. A 401 clears the header, "token" and "user" (other keys kept) and navigates to `/login`. Coherence is preserved |
| Api.UnauthorizedLogsOut | lib/api.ts:38-50 | After a 401 no token is stored and the next request carries no `Authorization` |
| Api.DefaultHeaders | lib/api.ts:5-10 | JSON content type always; `Authorization` exactly when the default header is set |
| Api.InterceptRequest | lib/api.ts:24-35 | With a stored non-empty token and a header bag, `Authorization` becomes that token's bearer and the other headers are kept; otherwise the config passes through unchanged |
| Api.Send | lib/api.ts:5-35 | The request config the interceptors hand to the adapter has the helper's route, params and body and a JSON content type. It carries the stored token's bearer whenever a token is stored, and exactly that (or none) while the client is coherent |
| Api.TokenLifecycle | lib/api.ts:13-35 | After `setAuthToken(t)` every request carries `Bearer t`; after `setAuthToken(null)` none carries a token |
| Api.ApiClient.constructor | lib/api.ts:5-10 | A fresh client has no default `Authorization` over whatever `localStorage` holds, and is coherent |
| Api.ApiClient.SetAuthToken | lib/api.ts:13-21 | The new state is `WithToken` of the old one, and the client is coherent |
| Api.ApiClient.SetItem | app/login/page.tsx:80 | The new state is `WithItem` of the old one; writing a key other than "token" keeps a coherent client coherent |
| Api.ApiClient.Dispatch | lib/api.ts:38-50 | The caller receives the server's outcome unchanged; the new state is `AfterResponse` of the old one; a coherent client stays coherent |
| Store.AuthStore.constructor | lib/store.ts:36-38 | Nobody is logged in, and `isAuthenticated` agrees with the token |
| Store.AuthStore.SetAuth | lib/store.ts:40-44 | User and token are replaced and the flag is raised; the flag still agrees with the token |
| Store.AuthStore.Logout | lib/store.ts:46-50 | Back to the initial state from any state; the flag agrees with the token |
| Store.CartStore.constructor | lib/store.ts:59-61 | An empty cart with zero total and count |
| Store.CartStore.SetCart | lib/store.ts:63 | The three fields are replaced as given, unchecked against each other |
| Store.CartStore.ClearCart | lib/store.ts:65 | Exactly the initial cart again |
| Store.StoresAreIndependent | lib/store.ts:33-66 | Logging in, clearing the cart and logging out (twice) ends logged out with an empty cart; each action's frame is its own store |
| JsText.TrimStart | app/register/page.tsx:63 | The result is a suffix; everything cut is whitespace; the result does not start with whitespace |
| JsText.TrimEnd | app/register/page.tsx:63 | The result is a prefix; everything cut is whitespace; the result does not end with whitespace |
| JsText.Trim | app/register/page.tsx:63 | The result has no edge whitespace and is no longer than the input; a string without edge whitespace is its own trim |
| JsText.TrimCutsWhitespaceRuns | app/register/page.tsx:63 | The trim is a middle part of the input: everything before it and everything after it is whitespace |
| JsText.Utf16Length | app/register/page.tsx:73 | `length` lies between the number of code points and twice that |
| JsText.Utf16LengthBmp | app/register/page.tsx:45-48 | Below U+10000, `length` is the number of characters |
| JsText.Utf16LengthAppend | app/register/page.tsx:45-48 | `length` adds up over concatenation |
| JsText.Join | app/register/page.tsx:123-125 | Joining nothing gives ""; otherwise the first part begins the result |
| JsText.NatToString | app/products/page.tsx:91 | A rendered natural is a non-empty run of digits without a leading zero whose value is the number |
| JsText.IntToString | lib/api.ts:94 | A rendered integer is an optional minus sign followed by digits |
| JsText.IntToStringRoundTrip | lib/api.ts:94-116 | Parsing a rendered integer gives it back |
| JsText.IntToStringInjective | lib/api.ts:94-116 | Distinct ids render to distinct path segments |
| Json.Lookup | app/products/page.tsx:61-67 | A property is found exactly when some binding has that key, and its value is one bound to that key |
| Json.LookupLastBindingWins | app/products/page.tsx:61-67 | When a key is bound more than once, the last binding is the one found, as `JSON.parse` keeps it |
| Json.Member | app/products/page.tsx:61-67 | `x?.key` is defined exactly for an object that binds the key |
| Json.Truthy | app/products/page.tsx:61 | Only a defined, non-null value can be truthy; every array and object is, even an empty one |
| Json.IsArray | app/products/page.tsx:59 | An array is truthy |
| Json.Elements | app/products/page.tsx:59-68 | The items of an array; nothing for any other value |
| AuthForms.FirstAt | app/login/page.tsx:51 | The index of the first `@`, or the length when there is none |
| AuthForms.IsValidEmail | app/login/page.tsx:51 | An accepted address holds an `@` and is at least five characters long; the scan is equivalent to the pattern (`EmailScanMatchesPattern`) |
| AuthForms.EmailScanMatchesPattern | app/login/page.tsx:51 | The scan accepts exactly the strings `^[^\s@]+@[^\s@]+\.[^\s@]+$` matches |
| AuthForms.ScanFindsPattern | app/register/page.tsx:68 | A string the scan accepts splits into local part, `@`, domain, `.`, top-level part |
| AuthForms.PatternPassesScan | app/register/page.tsx:68 | Any such split passes the scan |
| AuthForms.DotJoinIsPlain | app/register/page.tsx:68 | Two runs of `[^\s@]` joined by `.` form one run |
| AuthForms.ValidEmailIsTrimmed | app/login/page.tsx:51-62 | An accepted address is its own trim, so `email.trim()` sends it as typed; an address with edge whitespace is rejected |
| AuthForms.NestedToken | app/login/page.tsx:68 | `res.data?.data?.token`: undefined without the envelope, the envelope's token otherwise |
| AuthForms.UserOf | app/login/page.tsx:69 | `res.data?.data?.user`: undefined without the envelope, the envelope's user otherwise |
| AuthForms.ExtractToken | app/login/page.tsx:68 | A token is found exactly when the enveloped or the top-level one is non-empty; the enveloped one wins |
| AuthForms.TokenShapesAgree | pages/register.tsx:43 | `{token}` and `{data: {token}}` give the same token |
| AuthForms.SaveSession | app/login/page.tsx:78-81 | Header and "token" are set to the token; "user" is stored when given; every other key and navigation are untouched; the copies agree |
| AuthForms.ClientAfterAuth | app/login/page.tsx:61-81 | Success with a token saves the session; success without one changes nothing; a failure is what the interceptor leaves; coherence is preserved |
| AuthForms.SignedInRequestsCarryToken | app/login/page.tsx:78 | After a successful sign-in every request carries the new token |
| AuthForms.FallbackMessage | pages/register.tsx:57 | The server's message, else the error's own, else "Login failed"; never empty |
| AppRegister.CheckPasswordStrength | app/register/page.tsx:44-50 | Each label holds exactly under its length and character-class condition; no label exactly for the empty password |
| AppRegister.StrengthNeverDropsWhileTyping | app/register/page.tsx:44-50 | Appending characters never lowers the label |
| AppRegister.RegistrationChecks | app/register/page.tsx:58-81 | Five checks with their messages, in the order the handler runs them |
| AppRegister.FirstFailing | app/register/page.tsx:58-81 | The position of the first failing check: all before it pass and it fails |
| AppRegister.FirstFailingIs | app/register/page.tsx:58-81 | A position preceded only by passing checks, and failing or past the end, is the first failing one |
| AppRegister.RegistrationError | app/register/page.tsx:58-81 | No message exactly when every check passes |
| AppRegister.RegistrationAccepted | app/register/page.tsx:58-81 | The form is accepted exactly when all five conditions hold |
| AppRegister.ShortPasswordReported | app/register/page.tsx:73-76 | Once the earlier checks pass, a password shorter than six units is too short, whatever its confirmation |
| AppRegister.MismatchReported | app/register/page.tsx:78-81 | Once the earlier checks pass, a long enough password that differs from its confirmation is a mismatch |
| AppRegister.ShortPasswordReportedBeforeMismatch | app/register/page.tsx:73-81 | "abc"/"xyz" and "abcde"/"abcde" are too short; "abcdef"/"abcdeg" is a mismatch |
| AppRegister.AcceptedFormSentAsTyped | app/register/page.tsx:88-93 | An accepted form whose name has no whitespace around it is sent exactly as filled in |
| AppRegister.RegistrationFailureMessage | app/register/page.tsx:120-134 | 422 gives the joined validation messages or the invalid-data text; 409 gives the taken-e-mail text; otherwise the server's message or the creation-failed text; an empty result happens only for a 422 with errors |
| AppRegister.EmptyErrorsGiveEmptyMessage | app/register/page.tsx:120-126 | A 422 with an empty `errors` object leaves an empty error text |
| AppRegister.ValidationSummary | app/register/page.tsx:123-125 | No fields give ""; otherwise the first field's messages, joined by ", ", begin the text |
| AppRegister.ValidationSummarySeparators | app/register/page.tsx:123-125 | One field gives its messages joined by ", "; each further field follows after one space |
| AppRegister.RegisterPage.constructor | app/register/page.tsx:32-41 | All fields are empty, nothing is loading, no messages |
| AppRegister.RegisterPage.OnPasswordChange | app/register/page.tsx:199-201 | The password and its recomputed strength are stored; nothing else changes |
| AppRegister.RegisterPage.Validate | app/register/page.tsx:58-81 | The early-return chain stops with exactly `RegistrationError`'s message |
| AppRegister.RegisterPage.HandleRegister | app/register/page.tsx:52-138 | An invalid form shows its message and clears success; nothing is sent and the client is untouched. A valid one sends the trimmed body through the client, which ends as `ClientAfterAuth` (user kept); the page ends as `Answered`; a coherent client stays coherent |
| AppRegister.RegisterPage.Submit | app/register/page.tsx:83-137 | The body is sent through the client; client and page end as the answer dictates; a coherent client stays coherent |
| AppLogin.LoginError | app/login/page.tsx:46-54 | No message exactly when both fields are filled and the e-mail matches the pattern; which message otherwise; an accepted e-mail is trimmed |
| AppLogin.LoginBody | app/login/page.tsx:61-64 | An address without whitespace around it is sent as typed, with the password |
| AppLogin.AcceptedEmailSentAsTyped | app/login/page.tsx:51-64 | For an accepted form the body holds the e-mail exactly as typed |
| AppLogin.FirstFieldMessage | app/login/page.tsx:99 | A message exists exactly when the first field has one, and it is that field's first message |
| AppLogin.LoginFailureMessage | app/login/page.tsx:94-108 | The text for 401, 422, 429 and other statuses, as the page chooses them; never empty |
| AppLogin.OnlyFirstValidationMessageShown | app/login/page.tsx:96-100 | On a 422 only the first message of the first field is shown |
| AppLogin.EmptyFirstFieldFallsBack | app/login/page.tsx:99-100 | A first field without messages gives the invalid-data text even when later fields have some |
| AppLogin.LoginPage.constructor | app/login/page.tsx:32-37 | Empty fields, nothing loading, no messages |
| AppLogin.LoginPage.HandleLogin | app/login/page.tsx:40-112 | An invalid form shows its message; nothing is sent and the client is untouched. A valid one sends the trimmed e-mail; the client ends as `ClientAfterAuth` (user kept) and the page as `Answered`; a coherent client stays coherent |
| AppLogin.LoginPage.Submit | app/login/page.tsx:56-111 | The body is sent through the client; client and page end as the answer dictates; a coherent client stays coherent |
| PagesRegister.PlainLoginBody | pages/register.tsx:42 | The body holds both fields exactly as typed |
| PagesRegister.LoginForm.constructor | pages/register.tsx:23-26 | Empty fields, nothing loading, no error |
| PagesRegister.LoginForm.HandleLogin | pages/register.tsx:29-62 | An empty field shows the prompt; nothing is sent and the client is untouched. Otherwise the fields are sent as typed; the client ends as `ClientAfterAuth` (no user stored) and the form as `Answered`; a coherent client stays coherent |
| PagesRegister.LoginForm.Submit | pages/register.tsx:38-61 | The body is sent through the client; client and form end as the answer dictates; a coherent client stays coherent |
| PagesLogin.SecondTokenWriteChangesNothing | pages/login.js:36-37 | Writing the token again after `setAuthToken` leaves the client as the saved session |
| PagesLogin.LoginForm.constructor | pages/login.js:6-9 | Empty fields, nothing loading, no error, no alerts |
| PagesLogin.LoginForm.HandleLogin | pages/login.js:12-47 | Like the pages/register.tsx form, with every message also appended to the alerts; a coherent client stays coherent |
| PagesLogin.LoginForm.Submit | pages/login.js:22-46 | The body is sent; the client ends as `ClientAfterAuth` despite the second token write, so a coherent client stays coherent; the form ends as `Answered` |
| AppProducts.DropLeadingSlashes | app/products/page.tsx:36-38 | A suffix; everything cut is `/`; the rest does not start with `/` |
| AppProducts.ImageUrl | app/products/page.tsx:26-41 | Every URL is absolute; an absolute path is returned as it is |
| AppProducts.UnderServerIsAbsolute | app/products/page.tsx:40 | Anything under the image server is an absolute URL |
| AppProducts.RelativeImageUrl | app/products/page.tsx:35-40 | A relative path without edge whitespace goes under the server without its leading slashes |
| AppProducts.GetImageUrl | app/products/page.tsx:26-41 | The slash-stripping loop computes `ImageUrl` |
| AppProducts.ImageUrlIdempotent | app/products/page.tsx:26-41 | A URL the function produced comes back unchanged |
| AppProducts.LeadingSlashesIgnored | app/products/page.tsx:35-40 | Any number of leading slashes names the same image |
| AppProducts.SlashesDropped | app/products/page.tsx:36-38 | Dropping the slashes of n slashes before a path that starts with none gives the path |
| AppProducts.LoneSlashGivesServerRoot | app/products/page.tsx:27-40 | "/" gives the server root; "" gives the placeholder |
| AppProducts.SpaceBeforeSchemeMakesItRelative | app/products/page.tsx:31-35 | A URL typed after a space is trimmed and then placed under the server |
| AppProducts.NormaliseProducts | app/products/page.tsx:56-69 | A bare array; else, when `data` is truthy, `data` or `data.data`; else `products` when it is an array; the result is one of those lists or empty |
| AppProducts.ListShapesAgree | app/products/page.tsx:59-69 | The four accepted shapes give the same list |
| AppProducts.TruthyDataHidesProducts | app/products/page.tsx:61-67 | A truthy `data` without a list hides `products` |
| AppProducts.LoadErrorMessage | app/products/page.tsx:80-95 | The fixed texts for 404, 500 and 401; the generic text with the status in parentheses otherwise; the unexpected text for non-axios errors; never empty |
| AppProducts.StatusReadBack | app/products/page.tsx:91 | The status in the generic text reads back as the server's status |
| AppProducts.NoStatusIsNetworkError | app/products/page.tsx:91 | No response, or status 0, shows the network text |
| AppProducts.StatusText | app/products/page.tsx:91 | A non-zero status reads back from the text; no status, or 0, gives the network text |
| AppProducts.ProductsPage.constructor | app/products/page.tsx:20-22 | No products, loading, no error |
| AppProducts.EffectRun.constructor | app/products/page.tsx:44 | Each run of the effect starts with its own `ignore` flag down |
| AppProducts.ProductsPage.Mount | app/products/page.tsx:44-52 | A new run with its own flag down; loading raised; error cleared; `GET /products` sent through the client |
| AppProducts.ProductsPage.Unmount | app/products/page.tsx:106-108 | The cleanup raises that run's flag; the page is untouched |
| AppProducts.ProductsPage.Settle | app/products/page.tsx:52-101 | The answer always passes the interceptor, and a coherent client stays coherent. If its run was cleaned up the page is unchanged; otherwise it takes the normalised list or the error text, and loading ends |
| AppProducts.RemountIgnoresFirstRun | app/products/page.tsx:43-109 | Run, cleanup, run again: the first run's answer leaves the page alone, and the page ends with the second run's list |
| PagesProducts.DropStoragePrefix | pages/products.tsx:48-52 | One `/storage/` or `storage/` prefix is removed, the longer first; the result is a suffix |
| PagesProducts.DropOneSlash | pages/products.tsx:55-57 | At most one leading `/` is removed |
| PagesProducts.ImageUrl | pages/products.tsx:30-63 | Every URL starts with "http"; a path starting with "http" is returned as it is; any other path goes under the storage root |
| PagesProducts.ImageUrlIdempotent | pages/products.tsx:30-63 | A URL the function produced comes back unchanged |
| PagesProducts.RelativeUrl | pages/products.tsx:44-59 | A relative path without edge whitespace loses a storage prefix, then a slash, and goes under the storage root |
| PagesProducts.StorageSpellingsAgree | pages/products.tsx:47-59 | `a.png`, `/a.png`, `storage/a.png` and `/storage/a.png` give the same URL |
| PagesProducts.SpellingBare | pages/products.tsx:44-59 | A bare name goes directly under the storage root |
| PagesProducts.SpellingSlash | pages/products.tsx:54-59 | One leading slash is dropped |
| PagesProducts.SpellingStorage | pages/products.tsx:50-51 | `storage/` is dropped |
| PagesProducts.SpellingSlashStorage | pages/products.tsx:48-49 | `/storage/` is dropped |
| PagesProducts.OnlyOneSlashDropped | pages/products.tsx:54-59 | Two leading slashes leave one, giving a double slash in the URL |
| PagesProducts.NormaliseProducts | pages/products.tsx:78-86 | A bare array; else `data` if it is an array; else `products` when it is an array; the result is one of those lists or empty |
| PagesProducts.ListShapesAgree | pages/products.tsx:80-86 | The three accepted shapes give the same list |
| PagesProducts.LoadErrorMessage | pages/products.tsx:94-106 | The fixed texts for 404, 500 and 401; the generic text otherwise; the unexpected text for non-axios errors |
| PagesProducts.ProductsPage.constructor | pages/products.tsx:22-24 | No products, loading, no error |
| PagesProducts.ProductsPage.Mount | pages/products.tsx:66-73 | A new run with its own flag down; loading raised; error cleared; `GET /products` sent through the client |
| PagesProducts.ProductsPage.Unmount | pages/products.tsx:117-119 | The cleanup raises that run's flag; the page is untouched |
| PagesProducts.ProductsPage.Settle | pages/products.tsx:73-112 | The answer always passes the interceptor, and a coherent client stays coherent. If its run was cleaned up the page is unchanged; otherwise it takes the list or the error text, and loading ends |
| Variants.CommonShapesAgree | app/products/page.tsx:59-69 | Both listings read a bare array, `{data}` and `{products}` alike |
| Variants.NestedListOnlyInApp | app/products/page.tsx:64-65 | Only the app listing finds `data.data` |
| Variants.ProductsBesideDataOnlyInPages | pages/products.tsx:82-85 | Beside a truthy non-list `data`, only the pages listing reads `products` |
| Variants.BareNameUrlsDiffer | pages/products.tsx:59 | A bare file name goes to the server root in one listing and under `/storage/` in the other |
| Variants.HttpNamedFile | pages/products.tsx:39-42 | A relative file named "http…" is returned as it is by the pages listing only |
| Variants.LoadErrorTextsAgreeUpToStatus | app/products/page.tsx:91 | The pages listing's error text is a prefix of the app listing's, and strictly shorter when the status is shown |
| Variants.ValidationMessagesShownDifferently | app/login/page.tsx:99-100 | On the same 422, login shows the first message and register shows all of them, beginning with it |

## Left out

- The HTTP transport, `async`/`await` ordering, and the `setTimeout` delays before `router.push` are not modelled. The server's answer is an input to each handler, and a scheduled navigation is recorded in `redirectTo` at once.
- The response interceptor's `typeof window` check is not modelled: the client always runs in a browser.
- The request interceptor's error handler only rejects again, and it is not modelled.
- The base URL `http://127.0.0.1:8080/api` is not modelled. Request paths are relative to it.
- `console` logging, JSX rendering, `alert` dialogs beyond the list of messages shown, and the `showPassword` toggles are not modelled.
- zustand's `persist` middleware and rehydration from "auth-storage" are not modelled; each store is a plain object.
- `JSON.stringify` of the user is not modelled. The user is carried as the string that would be stored.
- JSON numbers are integers, and the cart total is a `real`.
- Object members are ordered as sent. `Object.values` and `Object.entries` follow that order, which matches JavaScript for non-index keys.
- The regular-expression engine is not modelled. The one e-mail pattern is modelled by hand and proved equal to a scan.
- pages/login.js imports `../src/lib/api`. That file is not part of this model; it is taken to be lib/api.ts.
- The messages that `handleRegister` and `handleLogin` clear first are cleared in the model on each early return or at the start of `Submit`. The state at the end is the same.
- AppRegister.RegistrationFailureMessage: a 422 whose `errors` object is empty gives an empty message, as in the code (`AppRegister.EmptyErrorsGiveEmptyMessage`).
- JsText.Join: its contract states only the empty case and that the first part begins the result. Separators are characterised by the body and by `AppRegister.ValidationSummarySeparators`.
- Api.RouteOf: its own contract states only that a route is an absolute path. The full read-back is `Api.RouteOfParses`, kept apart so that requests built from routes stay cheap to verify.
- JsText.Trim: its own contract states that the result has no edge whitespace. That it is the middle of the input with only whitespace cut is `JsText.TrimCutsWhitespaceRuns`, kept apart so that the many proofs about trimmed form fields stay cheap to verify.
- Json.Lookup: its own contract states only that the value found is bound to the key. That the last binding wins is `Json.LookupLastBindingWins`.
- JsText.IntToString: route ids are taken to be integers of magnitude below 2^53. A JavaScript number renders differently beyond that (exponent form from 1e21), and fractions and `NaN` are not modelled.
- axios's own defaults (its `Accept` header) and the XHR adapter's removal of `Content-Type` from a request without a body are not modelled. `Api.Send` is the config the interceptors hand to the adapter, not the request on the wire.
- AppRegister.RegisterBody: it carries no contract of its own; what an accepted form sends is `AppRegister.AcceptedFormSentAsTyped`.
