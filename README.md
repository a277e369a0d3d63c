# shoemoa storefront — a Dafny model of its client-side logic

This project models the parts of the shoemoa Next.js storefront that carry
decisions of their own:

- the shared request client `fetchApi`. It builds a request fingerprint and keeps a registry of in-flight requests, so identical concurrent calls share one request. It also builds the headers and turns a response into a success envelope or an error;
- the authentication provider. It covers the session fields and their storage, login, logout, the startup refresh, and `authenticatedFetch` with its single retry after a token refresh;
- the product, admin and order API helpers with their deterministic mock fallbacks: query assembly, mock pagination, detail lookup, multipart forms, deletion and order totals;
- four page-level rules:
  - the admin access guard;
  - the admin list search and delete;
  - the signup password checks;
  - the email-verification status machine.

Modules, one per file:

| file | module | models |
|---|---|---|
| wrappers.dfy | Wrappers | `Option`, `Result` |
| seqs.dfy | Seqs | `Array.prototype.filter` and its laws |
| text.dfy | Text | JavaScript string behaviour used by the core: truthiness and `\|\|`, `String(n)`, ASCII `toLowerCase`, `includes`, `length` in UTF-16 code units, `JSON.stringify` of a string |
| client.dfy | Client | `fetchApi` (lib/api/client.ts) |
| auth.dfy | Auth | `AuthProvider` (lib/hooks/use-auth.tsx) |
| catalog.dfy | Catalog | product, cart and page records |
| products.dfy | Products | lib/api/products.ts |
| admin.dfy | Admin | lib/api/admin.ts |
| orders.dfy | Orders | lib/api/orders.ts |
| admin_layout.dfy | AdminLayout | app/admin/layout.tsx |
| admin_page.dfy | AdminPage | app/admin/page.tsx |
| signup.dfy | Signup | app/signup/page.tsx |
| verify_email.dfy | VerifyEmail | app/verify-email/page.tsx |

Everything the code obtains from outside is a parameter. This covers a transport outcome for a physical request, what the login, reissue, signup or verify endpoint answers, the mock catalogue and cart, and the files chosen for an upload.

Where state is updated in place, the model is a class with `modifies` clauses:

- `Client.Registry`: the in-flight registry;
- `Auth.Session`: the session fields and the browser storage;
- `AdminPage.AdminProductsPage`, `Signup.SignupPage`, `VerifyEmail.VerifyEmailPage`: page state.

Each of those methods is proved against a pure function, and the properties are proved about that function. For example, `Auth.Session.AuthenticatedFetch` writes the recursion with its retry counter as a loop of at most two rounds. Its result and final state are tied to `Auth.RetryPolicy`.

The retry is sometimes summarised as "a second 401 propagates to the caller". The code does otherwise, and the model follows the code. In `authenticatedFetch` the retried call runs inside the `try` whose `catch` handles reissue failures (lib/hooks/use-auth.tsx:128-141). So a failure of the retried call, even a second expired-token 401, logs the user out and throws the fixed re-login error. It does not propagate the retried call's own error. The "Failed to re-issue token" error thrown at lib/hooks/use-auth.tsx:135 is caught by the same handler, so it never reaches a caller.

## Model

| member | source | states |
|---|---|---|
| Client.Method | lib/api/client.ts:18 | the method is the caller's when it is a non-empty string, otherwise "GET"; never empty |
| Client.BodyMarker | lib/api/client.ts:19 | the body part of the fingerprint is empty exactly for an absent or empty-string body, "form-data" for a multipart form, and the JSON string literal of any other string |
| Client.BodyMarkerExact | lib/api/client.ts:19 | two bodies get the same marker exactly when both are absent or empty, both are multipart forms, or they are the same string (because JSON.stringify is injective) |
| Client.RequestKeyExact | lib/api/client.ts:18-20 | for colon-free methods and endpoints, two calls share the fingerprint `method:endpoint:marker` exactly when method, endpoint and body marker agree |
| Client.BuiltHeaders | lib/api/client.ts:29-40 | Authorization is "Bearer token" when a token is stored, otherwise the caller's; Content-Type is application/json unless the body is a form, then the caller's; every other header is the caller's |
| Client.SetHeader | lib/api/client.ts:35 | assigning a header makes it read back as the new value and leaves every other header as it was |
| Client.SentInit | lib/api/client.ts:29-47 | method and body are passed through and credentials default to "include". Caller headers replace the built ones; otherwise Authorization is "Bearer token" exactly when a token is stored, and Content-Type is application/json exactly when the body is not a form; no other header is sent |
| Client.ShapeResponse | lib/api/client.ts:49-61 | success exactly for a 2xx answer with a JSON body, giving `{data, success: true}` with no message. A non-2xx answer throws with the status, the body's code, and the body's message when present, otherwise a non-empty fallback. Other failures carry neither status nor code |
| Client.HttpErrorMessage | lib/api/client.ts:50-51 | the error message is never empty: the body's message when it is a non-empty string, otherwise "HTTP error! status: N" |
| Client.HttpErrorFallback | lib/api/client.ts:51 | a non-OK answer without a usable message reports "HTTP error! status: N" |
| Client.Registry.constructor | lib/api/client.ts:6 | the registry starts empty |
| Client.Registry.Begin | lib/api/client.ts:22-28 | a call whose fingerprint is registered shares that request, and nothing is issued. Otherwise exactly one request is logged, with the fingerprint, the full URL and the sent init, and the registry maps the fingerprint to it. The registry invariant is kept |
| Client.Registry.Settle | lib/api/client.ts:62-68 | the settled request's fingerprint leaves the registry, on success and on failure alike, and the result is the shaped response |
| Client.Registry.Fetch | lib/api/client.ts:13-75 | a physical request is issued exactly when the fingerprint was not in flight. When the call resumes, the request it waited on (its own or the shared one) has settled and the fingerprint has left the registry; the result is the shaped response |
| Client.OneOutstandingPerKey | lib/api/client.ts:23-26 | no two unsettled requests have the same fingerprint |
| Client.DedupTrace | lib/api/client.ts:23-72 | a second identical call while the first is pending shares its request; after settlement the same call starts a new one |
| Text.OrElse | lib/api/client.ts:18 | `s \|\| fallback` for an optional string: the value when it is non-empty, otherwise the fallback |
| Text.NatToString | lib/api/products.ts:75 | decimal digits only, with no leading zero |
| Text.IntToString | lib/api/products.ts:75 | the rendering starts with '-' exactly for negative numbers |
| Text.DecimalRoundTrip | lib/api/products.ts:75 | reading the decimal rendering back gives the number |
| Text.IntValue | lib/api/products.ts:75 | a reading exists only for a non-empty string, and a negative reading only for one starting with '-' |
| Text.IntRoundTrip | lib/api/products.ts:75 | reading the rendering of any integer back (an optional '-', then its decimal digits) gives the integer |
| Text.IntToStringInjective | lib/api/admin.ts:47 | distinct integers render differently |
| Text.Lower | app/admin/page.tsx:45 | lower-casing keeps the length and maps each character on its own |
| Text.ContainsAt | app/admin/page.tsx:45 | `includes` finds every occurrence at any offset |
| Text.ContainsOffset | app/admin/page.tsx:45 | whatever `includes` finds occurs at some offset; the first such offset is returned |
| Text.ContainsIffOccurs | app/admin/page.tsx:45 | `includes` holds exactly when the query occurs at some offset |
| Text.LowerIdempotent | app/admin/page.tsx:45 | lower-casing twice is lower-casing once |
| Text.Utf16Length | app/signup/page.tsx:36 | `length` counts UTF-16 code units: between one and two per character, and exactly one per character when every character lies in the Basic Multilingual Plane |
| Text.Utf16LengthChar | app/signup/page.tsx:36 | a single character takes two code units exactly when it lies above U+FFFF, otherwise one |
| Text.Utf16LengthAppend | app/signup/page.tsx:36 | code units add up over concatenation |
| Text.QuoteJson | lib/api/client.ts:19 | JSON.stringify of a string is wrapped in double quotes |
| Text.UnescapeEscape | lib/api/client.ts:19 | reading back the escaped contents of a JSON string literal gives the original string |
| Text.QuoteJsonRoundTrip | lib/api/client.ts:19 | parsing the JSON string literal gives back the original string |
| Text.QuoteJsonInjective | lib/api/client.ts:19 | distinct strings have distinct JSON renderings |
| Seqs.Filter | lib/api/orders.ts:12 | the result is no longer than the input and holds only kept input elements |
| Seqs.FilterMembership | lib/api/orders.ts:12 | an element survives exactly when it is in the input and passes the test |
| Seqs.FilterAppend | lib/api/orders.ts:12 | filtering keeps relative order: filter(a+b) = filter(a) + filter(b) |
| Seqs.FilterCount | lib/api/orders.ts:12 | filtering never duplicates: a kept element occurs as often as in the input |
| Seqs.FilterAgree | app/admin/page.tsx:44 | two tests that agree on every element select the same elements |
| Seqs.FilterIdempotent | app/admin/page.tsx:44 | filtering twice with the same test is filtering once |
| Auth.Authenticated | lib/hooks/use-auth.tsx:44-51 | after setAuthTokens the token, role and email are stored and the session is authenticated with that role and email |
| Auth.Unauthenticated | lib/hooks/use-auth.tsx:106-111 | the no-metadata branch clears the session fields and keeps storage |
| Auth.Startup | lib/hooks/use-auth.tsx:87-113 | startup authenticates exactly when stored role and email exist and the reissue succeeds; then it uses the new token with the stored role and email. Without stored role and email only the session fields are cleared, and storage, a stale token included, is kept. The result is consistent |
| Auth.StartupFailureClears | lib/hooks/use-auth.tsx:92-105 | with stored metadata, a declined or thrown reissue leaves nothing stored and nobody signed in |
| Auth.RetryPolicy | lib/hooks/use-auth.tsx:119-144 | at most two calls; a second only after a 401 TOKEN_EXPIRED on the first and a successful reissue. The new token is installed exactly then. Other outcomes pass through with no logout. After an expired token, the user is logged out exactly when the reissue or the retried call fails, and then the fixed re-login error is thrown |
| Auth.NoSecondRefresh | lib/hooks/use-auth.tsx:127-141 | an expired-token failure of the retried call ends the chain with a logout: there is never a second refresh |
| Auth.OtherErrorsPropagate | lib/hooks/use-auth.tsx:126-143 | an error other than 401 with TOKEN_EXPIRED reaches the caller unchanged, after one call, with no logout |
| Auth.Session.constructor | lib/hooks/use-auth.tsx:39-42 | the provider mounts unauthenticated and loading, over whatever storage holds |
| Auth.Session.SetAuthTokens | lib/hooks/use-auth.tsx:44-51 | the state becomes `Authenticated(token, role, email)` |
| Auth.Session.Logout | lib/hooks/use-auth.tsx:53-63 | storage and session are cleared, the router goes to /login, and loading ends false |
| Auth.Session.Login | lib/hooks/use-auth.tsx:65-85 | success authenticates and returns the role; a decline returns null and leaves the session alone; a throw is rethrown. Loading ends false in every case |
| Auth.Session.InitAuth | lib/hooks/use-auth.tsx:87-113 | the state becomes `Startup(old state, reissue)` and loading ends false. It navigates to /login exactly when stored metadata existed and the reissue failed |
| Auth.Session.AuthenticatedFetch | lib/hooks/use-auth.tsx:119-145 | result, logout and refreshed state (role defaulting to "USER", email to "") follow `RetryPolicy`. The fingerprint has left the registry at the end. The first call issues a request unless it joins a pending one, which has then settled, and that request carries the old token. A retry always issues a fresh request, carrying the new token |
| Products.QueryParams | lib/api/products.ts:72-81 | the successive appends produce the declarative query `QuerySpec` |
| Products.QuerySpec | lib/api/products.ts:72-81 | at most eight parameters, the optional ones first, then page and size |
| Products.QueryLookup | lib/api/products.ts:74-81 | each optional parameter is sent exactly when its filter is truthy, so a price of 0 is not sent; page and size are always sent, defaulting to 0 and 10 |
| Products.SliceIndex | lib/api/products.ts:88-91 | slice indices are clamped to the list; non-negative ones are taken as they are |
| Products.JsSlice | lib/api/products.ts:88-91 | `slice` returns a contiguous run of the list starting at the clamped start, as long as the clamped end minus the clamped start (none if negative), and `s[start..end]` for in-range indices |
| Products.TotalPages | lib/api/products.ts:101 | a page count exists exactly for a non-zero size, and is non-negative for a positive one |
| Products.GetProducts | lib/api/products.ts:83-111 | a successful call passes through; any failure gives the mock page in a success envelope with "Mock data fallback" |
| Products.TotalPagesIsCeiling | lib/api/products.ts:101 | for a positive size, totalPages is the least page count that holds every element |
| Products.MockPageContent | lib/api/products.ts:88-91 | the fallback content is the catalogue from page*size to (page+1)*size, clamped, so at most size elements |
| Products.MockPageLast | lib/api/products.ts:100 | `last` holds exactly when page+1 >= totalPages |
| Products.PagesTile | lib/api/products.ts:88-91 | pages 0..k-1 concatenate to the first k*size elements, with no gap or overlap |
| Products.AllPagesCoverCatalogue | lib/api/products.ts:88-101 | browsing pages 0..totalPages-1 shows every mock product exactly once, in order |
| Products.FindIndex | lib/api/products.ts:122 | `find` returns the first product with the id, or none when no product has it |
| Products.MockDetail | lib/api/products.ts:126-133 | the mock detail copies name, brand, colour and price, has the options (250,10), (260,5), (270,12), and one image: the thumbnail, sort order 1, thumbnail true |
| Products.GetProductById | lib/api/products.ts:117-136 | a successful call passes through. On failure, detail data is present exactly when some mock product has the id: then it is the detail of the first such product in a success envelope, otherwise `{null, false, "Mock product not found"}` |
| Products.BuildProductForm | lib/api/products.ts:27-35 | the form is the "data" part first, then one "images" part per file, in file order |
| Products.CreateProductWithImages | lib/api/products.ts:27-40 | POST to /api/products with that form and no other options |
| Products.UpdateProductDetail | lib/api/products.ts:52-65 | PUT to /api/products/{id} with that form and no other options |
| Products.UploadsShareFingerprint | lib/api/client.ts:19 | two form uploads to one endpoint share a fingerprint whatever their files |
| Admin.GetAdminProducts | lib/api/admin.ts:11-36 | a successful call passes through unchanged; a failure gives the one-page mock list with "Mock data fallback" |
| Admin.AdminFallbackIsOneFullPage | lib/api/admin.ts:15-34 | for a non-empty catalogue, the admin fallback agrees with the shopper fallback for page 0 and a page size of the catalogue length: all products, first, last, one page, same counts |
| Admin.DeleteRequest | lib/api/admin.ts:47-49 | the deletion is a DELETE of /api/admin/products/{id}, with no body, headers or credentials |
| Admin.DeleteFingerprintsDistinct | lib/api/admin.ts:47-49 | deletions of two products never share a fingerprint; deletions of one product do |
| Admin.DeleteProduct | lib/api/admin.ts:42-54 | never fails: a successful call passes through, and any failure gives `{null, true, "상품이 삭제되었습니다 (Mock)"}` |
| Orders.Reduce | lib/api/orders.ts:13 | the left fold from `acc` is `acc` plus the sum of price * quantity over the items |
| Orders.CreateOrder | lib/api/orders.ts:12-21 | the items are exactly the cart items whose id is listed; the total is their sum; status is "confirmed"; success with "주문이 완료되었습니다" |
| Orders.OrderCounts | lib/api/orders.ts:12 | a listed item occurs as often as in the cart, however often its id repeats; an unlisted one not at all |
| Orders.OrderKeepsCartOrder | lib/api/orders.ts:12-13 | items keep cart order and totals add up over cart segments |
| Orders.EmptySelection | lib/api/orders.ts:12-13 | an empty id list gives no items and a total of 0 |
| AdminLayout.AdminGuard | app/admin/layout.tsx:16-34 | children render exactly when loading is over and the user is an authenticated ADMIN. A redirect to /login?message=unauthorized happens exactly when loading is over and the user is not. Never both; neither while loading |
| AdminLayout.GuardAfterStartup | app/admin/layout.tsx:13-27 | after startup the guard admits exactly when the stored role is ADMIN, an email is stored and the reissue succeeded |
| AdminPage.Search | app/admin/page.tsx:41-51 | an empty query shows the whole list |
| AdminPage.SearchMembership | app/admin/page.tsx:42-47 | a non-empty query shows exactly the products whose lower-cased name contains the lower-cased query |
| AdminPage.SearchKeepsOrder | app/admin/page.tsx:44-46 | results keep list order |
| AdminPage.SearchIgnoresQueryCase | app/admin/page.tsx:45 | lower-casing the query does not change the result |
| AdminPage.WithoutId | app/admin/page.tsx:76 | the remaining list is no longer than before, and holds only earlier products whose id differs from the deleted one |
| AdminPage.WithoutIdMembership | app/admin/page.tsx:76 | a deletion removes exactly the products with the deleted id |
| AdminPage.AdminProductsPage.constructor | app/admin/page.tsx:31-35 | the page starts with an empty query and a filtered list equal to the product list |
| AdminPage.AdminProductsPage.SetSearchQuery | app/admin/page.tsx:41-51 | the query is set and the filtered list is the search result; products and selection are unchanged |
| AdminPage.AdminProductsPage.HandleDelete | app/admin/page.tsx:71-82 | with no selection, or a selected id of 0, nothing changes. Otherwise a resolved delete removes every product with that id, a rejected one keeps the list, and the selection is cleared. The filtered list follows |
| Signup.ValidationError | app/signup/page.tsx:31-39 | no error exactly when the passwords match and are 8 or more code units long; a mismatch is reported first, then shortness |
| Signup.SignupPage.constructor | app/signup/page.tsx:18-19 | the form starts with no error and not loading |
| Signup.SignupPage.HandleSubmit | app/signup/page.tsx:27-54 | an invalid form sets the validation message and makes no call. A valid one makes exactly one signup call, and loading ends false. Success navigates to /login, a throw sets the failure message, and a decline does neither |
| VerifyEmail.Outcome | app/verify-email/page.tsx:19-40 | never stays loading, and the message is never empty. Success exactly for a valid link and a verified reply. An invalid link gives the invalid-link message. Refused or thrown replies give their message or the default |
| VerifyEmail.VerifyEmailPage.constructor | app/verify-email/page.tsx:13-14 | the status starts as loading with an empty message |
| VerifyEmail.VerifyEmailPage.Run | app/verify-email/page.tsx:19-43 | status and message become `Outcome`; one verify call is made exactly when the link is valid |

## Left out

- Promise concurrency: the registry is driven by a sequential trace of begin and settle events. True interleaving of pending promises is not modelled. A caller that shares a request is given the outcome of that request as a parameter.
- Client.Registry.Fetch: models a call that is awaited to completion. A caller that joins a pending request resumes only after that request has settled, so `Fetch` settles it too. Interleavings in which other calls start while a caller waits are modelled with `Begin` and `Settle` directly.
- Real I/O:
  - `fetch` and `response.json()` are a `Transport` outcome and a parsed `Document`;
  - `URLSearchParams` percent-encoding is left out: the query is the list of (name, value) pairs;
  - `FormData` and `Blob` become a list of named parts.
- The endpoint paths for reissue, verify and signup are not used. The reissue, login, signup and verify calls are replies given as parameters, because lib/api/auth.ts only wraps `fetchApi`. Those calls are not routed through the request registry.
- `success: false` replies: `fetchApi` as written always resolves with `success: true`, so the `success: false` branches of login, startup, reissue, signup and verify cannot arise through it. They are still modelled, because each handler has that branch.
- Browser storage: `localStorage` is modelled as three optional fields on the session. lib/auth-storage.ts defines only the token accessors, and the role and email accessors imported by use-auth.tsx are not part of this model's sources, so they are plain fields too.
- React machinery:
  - effect scheduling and re-renders are left out: each effect is one method call, and `router.push` sets a "last navigated path" field;
  - stale `useCallback` closures are left out. In particular, the dependency list at lib/hooks/use-auth.tsx:145 omits `userEmail`, so the real callback can read an older email than the model's `old(userEmail)`.
- Auth.Session.AuthenticatedFetch: is specified for a `Document` result. The generic payload type `T` of the source is not kept.
- Timestamps: `Date.now()` ids and ISO timestamps (lib/api/orders.ts:15, 19) are not modelled, so `Orders.Order` has neither.
- lib/api/cart.ts: cart stubs return constants and are not modelled.
- Call-site type mismatches: where a page calls a helper with the wrong arguments (app/admin/page.tsx:56, app/admin/page.tsx:75, app/signup/page.tsx:44), each function is modelled by its own definition. The page is given the helper's outcome as a parameter.
- Pages without decision rules of their own: app/products, app/order, app/page.tsx, the login page, the new-product page, and the admin page's list loading and other UI are not modelled.
- The pageable `sort` blocks and the `paged` and `unpaged` constants of the mock envelopes are not represented. Neither are `description` and `createdAt` of products.
- Text.Lower: lower-cases ASCII letters only. Non-ASCII case mapping of `toLowerCase` is not modelled.
- Products.TotalPages: `Math.ceil` of the quotient is modelled on integers. A page size of 0 gives `None` where JavaScript gives `NaN` or `Infinity`, and a negative size gives the integer ceiling.
- Admin.AdminMockPage: for an empty mock catalogue the admin fallback still says `empty: false` and one page. The shopper fallback says `empty: true` and zero pages. The model keeps both as written, and `Admin.AdminFallbackIsOneFullPage` is therefore stated for non-empty catalogues.
- Client.SentInit: when a caller passes its own `headers`, the spread replaces the built headers, dropping Authorization and Content-Type. The model states this. No caller in the repository passes headers, so it is not reported as a defect.
- Logging and repeated navigation: the `console.log` and `console.error` calls are dropped. On a declined reissue the code calls `logout()` twice (lib/hooks/use-auth.tsx:134, then :139 from the enclosing `catch`), so "/login" is pushed twice; the model calls `Logout` once. The second call has no effect on the modelled state.
- Formatting prices with `Intl.NumberFormat`, and all rendering, are not modelled.
- JavaScript numbers are modelled as unbounded integers throughout: prices, quantities, sizes, page numbers, ids and totals. Fractions are lost, for example a minimum price of 99.5 parsed with `Number(...)` on the products page (app/products/page.tsx:137, 145). So are `NaN`, the exponent form that `String(n)` uses for magnitudes of 1e21 and above, and the loss of precision above 2^53.
