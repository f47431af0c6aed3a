# Daily Pi Mart: a verified model of the storefront's core

Daily Pi Mart is a storefront that takes payment in Pi through the Pi Browser SDK.
This project models its core in Dafny and proves what that core promises:

- **Payment gateway relay.** Five edge functions: approve, complete, get, cancel and verify-user.
  Each is a pure `Serve(request, serverKey, upstreamReply)`. It returns the response and the
  upstream call it made, if any. The request holds the method, the path and the body. The body is
  either text that fails to parse or a JSON value.
- **Session hook.** `usePiSDK` is a class `PiSession`. It has the SDK discovery poll, which is
  bounded at 20 checks, and the two halves of `authenticate`. It also has `logout`, the session
  restore effect and `createPayment`. A `LocalStorage` object holding a map stands in for
  `localStorage`. The stored user is written with a JSON codec of its own, and reading it back is
  proved to return the same user.
- **Buttons and checkout.** The pay button, the login button and the checkout page are classes.
  Their busy flags, toasts and calls to their owners are fields. Each SDK callback is a method, and
  the callbacks arrive one at a time.
- **Catalogue and browse.**
  - The product catalogue, with `getProductBySlug` and `getProductsByCategory`.
  - The browse search filter.
  - The browse in-place sort: an insertion sort on an `array`. It is proved equal to a functional
    stable sort, and that sort is proved sorted and a permutation.
  - With category `'All'` and no search, the shared catalogue array is the one sorted and returned.
- **Quantity steppers.** The product page's quantity stepper (a class) and the cart page's
  per-item buttons.

The catalogue's prices are integer hundredths of a Pi (`priceCents`). `createdAt` is an integer
timestamp. The cart store is abstract: it is the sequence of calls the pages make to it
(`CartStore.StoreCall`).

Three facts about the code shape the model:

- The discovery poll makes at most 20 checks (src/hooks/usePiSDK.ts:43).
- The pay button's approval and completion callbacks only log (src/components/PiPayButton.tsx:61-78).
  The client never calls the gateway.
- `PiLoginButton` and the cart page read an `isLoadingSession` flag. The hook's result has no such
  field (src/hooks/usePiSDK.ts:137-146), so the flag is always `undefined`.

## Model

| member | source | states |
|---|---|---|
| ApprovePayment.Serve | supabase/functions/pi-approve-payment/index.ts:8-73 | OPTIONS gives the "ok" preflight with no upstream call. An unreadable body, or an explicit JSON `null`, gives 500 "Internal server error". A falsy `paymentId` gives 400 whatever the key and the reply. A missing or empty key gives 500 "Server configuration error". Upstream is called iff both guards pass, and the call is POST `.../v2/payments/<id>/approve` with `Key <key>`. A non-ok reply forwards its status with `details` = the reply text. An ok reply echoes the JSON with 200. Every other path is 500. |
| ApprovePayment.RejectionIgnoresUpstream | supabase/functions/pi-approve-payment/index.ts:14-32 | A request turned away before the fetch gets the same answer whatever the upstream would say, and no upstream call. |
| CompletePayment.Serve | supabase/functions/pi-complete-payment/index.ts:8-74 | As for approve, with 400 when either `paymentId` or `txid` is falsy. The upstream call is POST `.../complete` with body `{txid}`. Non-ok is forwarded with `details`; ok gives 200 echo; an exception gives 500. |
| CompletePayment.ForwardsOnlyTxid | supabase/functions/pi-complete-payment/index.ts:35-42 | The upstream body has exactly one member, `txid`, holding the request's `txid`. |
| CompletePayment.StatelessUpstream | supabase/functions/pi-complete-payment/index.ts:8-74 | The upstream call depends only on the request and the key. Identical requests produce identical calls. |
| GetPayment.PaymentIdOf | supabase/functions/pi-get-payment/index.ts:15-19 | The id is empty iff the path is empty or ends in `/`. A path without `/` is its own id. |
| GetPayment.PaymentIdOfIsFinalSegment | supabase/functions/pi-get-payment/index.ts:15-17 | The id is the final segment of the path: the text after the last `/`, or all of it when there is none. |
| GetPayment.PaymentIdIsTheFinalSegment | supabase/functions/pi-get-payment/index.ts:15-17 | The final segment is unique: any string with that property is the computed id. |
| GetPayment.PaymentIdOfAppended | supabase/functions/pi-get-payment/index.ts:15-19 | `prefix + "/" + id`, with no `/` in `id`, yields `id`. |
| GetPayment.Serve | supabase/functions/pi-get-payment/index.ts:8-74 | The body is never read. An empty id gives 400, then a missing key gives 500; neither reaches upstream. Otherwise the call is a GET of `.../v2/payments/<id>` with Key auth, and the reply maps as in approve. |
| GetPayment.TrailingSlashIsRejected | supabase/functions/pi-get-payment/index.ts:16-24 | For a non-OPTIONS request, the answer is the 400 "Payment ID is required" iff the path is empty or ends in `/`. |
| GetPayment.RequestedIdReachesUpstream | supabase/functions/pi-get-payment/index.ts:15-42 | A path ending in `/<id>`, with a configured key, makes exactly the GET of that id. |
| CancelPayment.Serve | supabase/functions/pi-cancel-payment/index.ts:8-76 | Same guards as approve. The upstream call is POST `.../cancel` with Key auth and no body. Every exception gives 500 with both `error` and `message`, the message being the thrown one. |
| CancelPayment.RelayFailureMessages | supabase/functions/pi-cancel-payment/index.ts:37-75 | The `message` is the network error's for a failed fetch. For a non-ok 304 reply it is the Fetch standard's null-body-status error. For an ok reply that is not JSON it is the parse error. |
| VerifyUser.Serve | supabase/functions/pi-verify-user/index.ts:8-70 | 400 without `accessToken`. A key must be present (else 500), yet the call is GET `.../v2/me` with `Bearer <token>`. Upstream 401 gives 401 "Invalid or expired access token". Ok gives 200 echo. Every other upstream status ends as 500. |
| VerifyUser.StatusesSeen | supabase/functions/pi-verify-user/index.ts:42-68 | A non-OPTIONS request is answered only with 200, 400, 401 or 500. No other upstream status reaches the client. |
| VerifyUser.KeyIsNotSent | supabase/functions/pi-verify-user/index.ts:25-40 | Any two configured keys give identical outcomes. The key is checked but never used. |
| VerifyUser.BearerOfStringToken | supabase/functions/pi-verify-user/index.ts:35-40 | A string token is sent as `Bearer <token>`. |
| JsonValues.Destructure | supabase/functions/pi-approve-payment/index.ts:15 | Destructuring `null` throws. An object gives its member, where the last duplicate key wins. Any other value gives `undefined`. |
| JsonValues.MemberIsLastOccurrence | supabase/functions/pi-complete-payment/index.ts:15 | The member found is the last occurrence of its key in the object. |
| Text.SplitLastIsFinalSegment | supabase/functions/pi-get-payment/index.ts:16-17 | The last element of `split('/')` is the path's final segment. |
| Text.JoinSplit | supabase/functions/pi-get-payment/index.ts:16 | Joining the split parts with the separator gives the path back. |
| Text.FinalSegmentEmptyIff | supabase/functions/pi-get-payment/index.ts:16-19 | A final segment is empty iff the path is empty or ends in the separator. |
| PiSdk.PiSession.constructor | src/hooks/usePiSDK.ts:35-38 | Initially not ready, checking, with no user and not authenticating. |
| PiSdk.PiSession.CheckSdk | src/hooks/usePiSDK.ts:41-64 | The first check runs at once, and each check adds one attempt. At most 20 checks run, and every check before the last failed. `isReady` holds iff the last check found both `authenticate` and `createPayment`. Without the SDK, exactly 20 checks run. `isChecking` ends false, and `user` and `isAuthenticating` are unchanged. |
| PiSdk.PiSession.BeginAuthenticate | src/hooks/usePiSDK.ts:66-74 | When the SDK is not ready or `window.Pi` is missing, it is refused with "Pi SDK not available" and nothing changes. Otherwise `isAuthenticating` is raised and the two scopes are requested. |
| PiSdk.PiSession.FinishAuthenticate | src/hooks/usePiSDK.ts:74-92 | On success `user` becomes `{uid, username, accessToken}` from the result and is stored under `pi_user`. A failure rethrows with user and storage unchanged. Either way `isAuthenticating` ends false. |
| PiSdk.PiSession.Logout | src/hooks/usePiSDK.ts:95-98 | `user` becomes null and only `pi_user` is removed, so the session is no longer authenticated. |
| PiSdk.PiSession.RestoreSession | src/hooks/usePiSDK.ts:125-135 | An absent or empty entry changes nothing. An entry that parses installs that user. Any other entry is removed, with the user unchanged. |
| PiSdk.PiSession.CreatePayment | src/hooks/usePiSDK.ts:100-123 | It is refused iff the SDK is not ready or `window.Pi` is missing. Otherwise the data goes through unchanged and the approval and completion callbacks are the caller's. A cancel or error callback that was given is passed on unchanged, and a missing one becomes a no-op. |
| PiSdk.Mount | src/hooks/usePiSDK.ts:125-135 | With the SDK check of lines 34-64 run first: after mounting, checking is over and `isReady` reflects the last check. A stored user is back, and with nothing stored nobody is signed in. |
| PiSdk.SignInSurvivesReload | src/hooks/usePiSDK.ts:74-135 | A successful sign-in followed by a reload in the same browser restores the same user. |
| PiSdk.LogoutSurvivesReload | src/hooks/usePiSDK.ts:95-141 | After logout and a reload nobody is authenticated. |
| SessionCodec.DecodeEncodeUser | src/hooks/usePiSDK.ts:84-130 | Reading back the text written for a user gives that user, escapes included. |
| SessionCodec.EncodeUserInjective | src/hooks/usePiSDK.ts:84 | Different users are stored as different texts. |
| SessionCodec.ReadEscaped | src/hooks/usePiSDK.ts:84-130 | The escaped form of any string, followed by `"`, reads back as that string, and the rest is left over. |
| PayButton.PaymentMemo | src/components/PiPayButton.tsx:57 | A non-empty memo is used as given. Otherwise the memo is "Daily Pi Mart Order <orderId>". |
| PayButton.PaymentMetadata | src/components/PiPayButton.tsx:58 | The metadata is an object with exactly the two keys `orderId` and `source`, holding the order id and "daily-pi-mart". |
| PayButton.PiPayButton.HandlePayment | src/components/PiPayButton.tsx:32-111 | The ready check comes first (toast, flag unchanged), then the sign-in check (toast, flag unchanged). Only then is `isProcessing` raised and the hook asked to pay, with this data and the button's four callbacks. A refused call clears the flag with the error toast. The owner is never called here. |
| PayButton.PiPayButton.OnReadyForServerApproval | src/components/PiPayButton.tsx:61-69 | Only a toast: the flag is unchanged and neither outer handler is called. |
| PayButton.PiPayButton.OnReadyForServerCompletion | src/components/PiPayButton.tsx:71-81 | `onSuccess(paymentId, txid)` is called when given, then the flag is cleared. |
| PayButton.PiPayButton.OnCancelled | src/components/PiPayButton.tsx:83-90 | The flag is cleared and the owner is not told. |
| PayButton.PiPayButton.OnError | src/components/PiPayButton.tsx:92-100 | `onError(error)` is called when given, and the flag is cleared. |
| PayButton.PiPayButton.CreatePaymentRejected | src/components/PiPayButton.tsx:103-110 | The catch block clears the flag without calling `onError`. |
| PayButton.EnabledClickReachesSdk | src/components/PiPayButton.tsx:32-113 | A click on an enabled button always reaches the SDK with the props' data, and the button is then disabled. |
| LoginButton.DisabledWithoutSessionFlag | src/components/PiLoginButton.tsx:46 | With the flag the hook in src/hooks/usePiSDK.ts:137-146 does not return, the button is disabled iff `!isReady \|\| isAuthenticating \|\| isLoading`. |
| LoginButton.PiLoginButton.HandleLogin | src/components/PiLoginButton.tsx:17-29 | Without the SDK there is only a toast: `isLoading` and `isAuthenticating` are untouched. If `authenticate` refuses at once, the loading flag drops, the failure toast shows and `isAuthenticating` is untouched. Otherwise `isLoading` and `isAuthenticating` are raised. On every path the user, `isReady`, `isChecking` and the success count stay as they were. |
| LoginButton.PiLoginButton.LoginSettled | src/components/PiLoginButton.tsx:28-43 | On success the user is set and stored under `pi_user` (what reads back as that user). The welcome toast shows, and `onSuccess` is called once when given. On failure the user and the storage are unchanged, there is a toast and `onSuccess` is not called. `isLoading` and `isAuthenticating` end false on both paths, and `isReady` and `isChecking` are unchanged. |
| LoginButton.ClickDisablesButton | src/components/PiLoginButton.tsx:27-46 | While a sign-in is under way the button is disabled. |
| Checkout.OrderId | src/pages/Checkout.tsx:33 | The id is "DPM-" followed by decimal digits that read back as the clock value. |
| Checkout.OrderIdInjective | src/pages/Checkout.tsx:33 | Different instants give different order ids. |
| Checkout.Render | src/pages/Checkout.tsx:24-33 | Together with the button's props at lines 187-192: signed out goes to /cart (checked first). Signed in with an empty cart goes to /browse. Otherwise the button gets the cart total, the order id, the memo with the item count and both handlers. |
| Checkout.CheckoutMemoReachesSdk | src/pages/Checkout.tsx:188-190 | Through src/components/PiPayButton.tsx:57, the SDK receives the checkout's memo and the cart total. |
| Checkout.CheckoutPage.HandlePaymentSuccess | src/pages/Checkout.tsx:35-48 | Processing ends, the cart is cleared once, and the user is sent to /orders with `replace`. |
| Checkout.CheckoutPage.HandlePaymentError | src/pages/Checkout.tsx:50-53 | Processing ends. There are no store calls, no toast and no navigation. |
| Checkout.CheckoutPage.Receive | src/pages/Checkout.tsx:35-53 | Wired up at lines 191-192: the button's success call clears the cart, shows the "Order Completed!" toast and navigates to /orders. Its error call changes neither the cart, the toasts nor the navigation. Processing ends on both paths. |
| Checkout.CompletedPaymentClearsCart | src/pages/Checkout.tsx:35-48 | A completed payment, through the button's completion callback (src/components/PiPayButton.tsx:71-81), clears the cart exactly once and lands on /orders. |
| Checkout.FailedPaymentKeepsCart | src/pages/Checkout.tsx:50-53 | An SDK error, passed on by src/components/PiPayButton.tsx:92-100, leaves the cart and the navigation as they were. |
| Checkout.CancelledPaymentKeepsCart | src/components/PiPayButton.tsx:83-90 | A cancellation never reaches the page. |
| Catalog.SampleProducts | src/data/products.ts:11-108 | The eight products, each stamped with its own load time. |
| Catalog.GetProductBySlug | src/data/products.ts:122-124 | None iff no product has the slug. Otherwise a product from the catalogue with that slug. |
| Catalog.SlugLookupIsExact | src/data/products.ts:122-124 | With distinct slugs, looking up a product's slug finds that product. |
| Catalog.SampleProductsFoundBySlug | src/data/products.ts:11-124 | Each sample product is found by its own slug. |
| Catalog.GetProductsByCategory | src/data/products.ts:126-129 | 'All' gives the catalogue itself. Any other category gives exactly its products, as an order-preserving subsequence. |
| Catalog.SampleProductsInvariants | src/data/products.ts:11-120 | Ids and slugs are pairwise distinct, every stock is at least 0, and every product's category is listed in `categories`. |
| Catalog.SampleIdsDistinct | src/data/products.ts:11-108 | No two sample products share an id. |
| Catalog.SampleSlugsDistinct | src/data/products.ts:11-108 | No two sample products share a slug. |
| Catalog.SampleStocksAndPrices | src/data/products.ts:11-108 | Every sample product is active, has a stock of at least 0 and a positive price. |
| Catalog.SampleCategoriesListed | src/data/products.ts:11-120 | Every sample product's category is listed in `categories` and is not 'All'. |
| Catalog.EmptyCategory | src/data/products.ts:128 | A category no product has yields the empty list. |
| Catalog.ListedButEmptyCategories | src/data/products.ts:110-128 | 'Home & Garden', 'Books & Media' and 'Automotive' are listed but yield no products. |
| Seqs.Filter | src/data/products.ts:128 | A filter keeps exactly the elements that pass, in order (a subsequence). |
| Seqs.FilterCounts | src/data/products.ts:128 | A filter keeps every copy of an element that passes and none of one that fails. |
| Seqs.SubsequenceTransitive | src/pages/Browse.tsx:30-41 | A subsequence of a subsequence is a subsequence. |
| Browse.GetParam | src/pages/Browse.tsx:27 | `get` gives the first entry with the key, or none iff there is none. |
| Browse.SelectedCategory | src/pages/Browse.tsx:27 | The category parameter when present and non-empty, otherwise 'All'. |
| Browse.CategoryChangeRoundTrip | src/pages/Browse.tsx:27-68 | 'All' clears every parameter. Choosing a category and reading it back gives that category. |
| Browse.SearchFilter | src/pages/Browse.tsx:33-41 | A blank trimmed query keeps the list. Otherwise the result is exactly the products whose lower-cased title, description or category contains the lower-cased untrimmed query, as a subsequence. |
| Browse.SearchMatchIff | src/pages/Browse.tsx:33-40 | For a non-blank query, a product is kept iff its title, description or category contains the query, ignoring ASCII case. |
| Browse.BlankQueryKeepsEverything | src/pages/Browse.tsx:33 | A query of white space only filters nothing. |
| Text.TrimEmptyIffBlank | src/pages/Browse.tsx:33 | `trim()` is empty iff the text is all white space. |
| Text.IncludesIff | src/pages/Browse.tsx:37-39 | `includes` holds iff the needle occurs at some index. |
| Browse.LeTotal | src/pages/Browse.tsx:44-56 | Every comparator orders any two products one way or the other. |
| Browse.LeTransitive | src/pages/Browse.tsx:44-56 | Every comparator is transitive. |
| Browse.SortByPermutes | src/pages/Browse.tsx:44-57 | Sorting is a permutation. |
| Browse.SortBySorted | src/pages/Browse.tsx:44-57 | Sorting gives a sequence in the chosen order. |
| Browse.SortBySortedIsIdentity | src/pages/Browse.tsx:44-57 | Sorting an already sorted list changes nothing. |
| Browse.SortByStable | src/pages/Browse.tsx:44-57 | The sort is stable: for any product y, the products comparing equal to y come out in the order they went in. |
| Browse.InsertKeepsRankOrder | src/pages/Browse.tsx:44-57 | Inserting a product places it after every product of its rank already there. |
| Browse.DefaultSortOfSimultaneousLoad | src/pages/Browse.tsx:24-55 | With every product stamped at the same instant, the initial `newest` order lists the products as they are. |
| Browse.SortInPlace | src/pages/Browse.tsx:44-57 | The in-place sort leaves the array holding SortBy of its old contents, which SortBySorted, SortByPermutes and SortByStable show is sorted, a permutation and stable. |
| Browse.FilteredAndSortedProducts | src/pages/Browse.tsx:29-60 | The listing is the category's products (src/data/products.ts:127), searched and then sorted. With 'All' and a blank query, the shared catalogue array itself is sorted and returned. Otherwise a new array is returned and the catalogue is untouched. |
| Browse.BrowseResultProperties | src/pages/Browse.tsx:30-57 | The listing is a permutation of the filtered products, every listed product is in the category, and the listing is sorted. The filtered products form a subsequence of the catalogue. |
| Browse.SortOrderMeaning | src/pages/Browse.tsx:45-56 | Neighbours are in order. For price-asc, prices are non-decreasing; for price-desc, non-increasing. For newest, `createdAt` is non-increasing. For name, titles are in string order. |
| ProductDetail.Render | src/pages/ProductDetail.tsx:19-22 | A missing or empty slug redirects to /browse. An unknown slug redirects to /404. Otherwise the page shows the catalogue's product with that slug. |
| ProductDetail.ProductDetailPage.constructor | src/pages/ProductDetail.tsx:15 | The quantity starts at 1, with no cart calls and no toasts. |
| ProductDetail.ProductDetailPage.IncreaseQuantity | src/pages/ProductDetail.tsx:32-36 | It increments exactly when the quantity is below stock, otherwise there is no change. It keeps 1 ≤ quantity ≤ max(1, stock). |
| ProductDetail.ProductDetailPage.DecreaseQuantity | src/pages/ProductDetail.tsx:38-42 | It decrements exactly when the quantity is above 1, otherwise there is no change. It keeps the same invariant. |
| ProductDetail.ProductDetailPage.HandleAddToCart | src/pages/ProductDetail.tsx:24-30 | It adds the product with the current quantity and shows "<q>x <title> added to your cart.". |
| ProductDetail.EnabledStepMoves | src/pages/ProductDetail.tsx:32-42 | With the product in stock, an enabled stepper button (rendered at lines 112-133) moves the quantity by exactly one and stays within 1..stock. |
| ProductDetail.AddedQuantityInRange | src/pages/ProductDetail.tsx:24-25 | What is added (by the button at line 112) to the cart from an in-stock page is this product with a quantity within 1..stock. |
| CartPage.Render | src/pages/Cart.tsx:17-139 | The empty-cart view shows iff there are no items. Otherwise there is one card per item, in the store's order. |
| CartPage.ButtonsActOnTheirLine | src/pages/Cart.tsx:55-115 | For a cart whose quantities lie in 1..stock, every card's remove, minus and plus buttons name that card's product, and no enabled button asks for a quantity outside 1..stock. |
| CartPage.DecrementClick | src/pages/Cart.tsx:102-103 | It is disabled iff quantity ≤ 1. Otherwise it requests quantity − 1 for that product. |
| CartPage.IncrementClick | src/pages/Cart.tsx:114-115 | It is disabled iff quantity ≥ stock. Otherwise it requests quantity + 1 for that product. |
| CartPage.StepsStayInRange | src/pages/Cart.tsx:102-115 | From a quantity within 1..stock, every enabled step requests a quantity within 1..stock. Both steps are enabled away from the bounds. |
| CartPage.CheckoutDisabledIffSignedOut | src/pages/Cart.tsx:189 | With the hook's missing `isLoadingSession`, the checkout button is disabled iff signed out. |

## Left out

- Network, environment and platform calls are inputs to the model. These are `fetch` to api.minepi.com (its reply is an input), `Deno.env.get` (the key is an input), `req.json()` (the parsed body or a parse failure), `window.Pi` (its shape at each check is an input), and the SDK's promises (their results are inputs to the settle methods).
- Toasts and navigations are recorded in sequences. Console logging is not modelled.
- Timing is not modelled. `setTimeout` and the 500 ms period become loop iterations, and React's state batching and async interleaving are serialized into one event at a time.
- Prices are floats in the source. They are kept as integer hundredths, and `toFixed(2)` formatting is not modelled.
- JSON numbers are integers. Only the JSON values the handlers inspect are modelled.
- Template strings render JSON values through a JavaScript-style `String(v)`. No number formatting is modelled beyond integers.
- `localeCompare` is replaced by code-point lexicographic order, and `toLowerCase` folds ASCII letters only.
- `createdAt` is an integer timestamp per product instead of an ISO string parsed by `Date`.
- `new URL(req.url)` is not modelled: the handler is given the path. Percent-encoding of the id in the upstream URL is also not modelled.
- The cart store's internals (`addItem`, `updateQuantity`, `removeItem`, `clearCart`, `getTotalPrice`, `getTotalItems`) are not part of this model. The pages' calls to it are recorded, and its totals are inputs.
- PiSdk.PiSession.RestoreSession: only text in the exact shape the session writes is read back as a user. Any other text that `JSON.parse` would accept, such as `null` or an object with extra members, is removed rather than installed.
- SessionCodec.DecodeUser: `\u` escapes of UTF-16 surrogates are refused, because Dafny's `char` holds Unicode scalar values.
- `localStorage.setItem` quota errors are not modelled.
- The incomplete-payment callback of `authenticate` is not modelled: the code passes none.
- Checkout's `isProcessing` is not modelled beyond what the handlers do: the page never sets it true.
- Product images are not modelled. An image is its asset name.
- `src/lib/pi-api.ts` is not part of this model. Its fetch wrappers are not called by the modelled code.
- Static, marketing and layout pages are not part of this model. They render fixed content.
