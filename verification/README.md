# BabyFoodCareProject: search, routing and test doubles in Dafny

BabyFoodCareProject is an iOS catalog of baby-food products. This project
models the parts of it whose behaviour can be stated exactly:

- **Product search** on the products screen (`ProductsPresenter` under
  `Modules/ProductsTab`): a case-insensitive substring filter over product
  titles, the reset that shows the full list again, and the effect of the
  initial load and of pull-to-refresh on the presenter's list, its view and
  its toasts.
- **`APIRouter`**: the mapping from each REST route to its scheme, host,
  path, HTTP method and query items, including the decimal rendering of the
  authority id.
- **`MockCacheService`**: the in-memory implementation of the response-cache
  protocol used by the tests, with its two tables (`storage` for `get`,
  `staleStorage` for `getStale`), its call records and its two switches.
- **`MockToastService`** and **`MockProductsView`**: the recording doubles
  the presenter tests use, with the invariants that tie their counters,
  flags and logs together.

Modules: `Wrappers` (Option), `Text` (letter-case folding, substring search,
decimal rendering), `ProductsModel` (the product entity), `ToastStyles` (the
toast styles and a toast request), `Router`, `Search`, `ToastMock`,
`ViewMock`, `Presenter`, `CacheMock`.

Modelling choices:

- The products, the fetch outcome and the collaborators are values. A
  product keeps only `id` and `title`, the two fields the logic reads.
  `apiClient.getProducts()` becomes a parameter `FetchResult` (a list, or
  failure). The body of each `Task { }` runs as one atomic step.
- The presenter keeps a log of every call it makes on its view (`viewCalls`)
  and on its toast service (`toasts`). It also logs the product ids it hands
  to the coordinator (`detailsRequests`). The weak `view` reference becomes
  the flag `viewAttached`: while it is false, view calls are dropped, as
  `view?.` drops them. A log is used for the view because the presenter calls
  `endRefreshing()`, which `MockProductsView` does not implement.
- The presenter's toast styles and localization keys are kept exactly as
  written. This includes the `.positive` toast shown when the initial load
  fails, and the "Products updated. Failed to refresh products…" key for a
  successful refresh.
- `MockCacheService` is a class over a key type with equality and a single
  value type `V`. Swift stores `Any` and casts it back with `as? T`; here a
  stored value always has the requested type. The mock's ten tracking
  properties (the flags, last keys and counters) are kept together in one
  record field, `calls`, which each operation updates in place.
- Each method's `modifies` clause names exactly the fields it assigns. So
  every field it does not name is unchanged by the frame.
- Counters are `nat`; the doubles' tests never come near `Int.max`.
- `ProductsTests.swift` builds the presenter with a `cacheService` argument
  and reads `mockView.endRefreshingCalled`. Neither exists in
  `ProductsPresenter.swift` or `MockProductsView.swift`. The model follows
  those two files.
- The real `CacheService` (BabyFoodCareProject/Services/Cache Service/CacheService.swift)
  adds TTL expiry, LRU eviction and a disk tier. Its get/set/invalidate
  contract is stated here for the mock only.

## Model

| member | source | states |
|---|---|---|
| `Text.LowerChar` | BabyFoodCareProject/Modules/ProductsTab/ProductsModul/ProductsPresenter.swift:83-84 | folding never yields an upper-case letter; an upper-case letter maps to its lower-case partner, and every other character is kept |
| `Text.Lowercased` | BabyFoodCareProject/Modules/ProductsTab/ProductsModul/ProductsPresenter.swift:83-84 | `lowercased()` keeps the length and folds each character in place |
| `Text.LowercasedIdempotent` | BabyFoodCareProject/Modules/ProductsTab/ProductsModul/ProductsPresenter.swift:83-84 | lower-casing an already lower-cased string changes nothing |
| `Text.ContainsIffSubstring` | BabyFoodCareProject/Modules/ProductsTab/ProductsModul/ProductsPresenter.swift:84 | the left-to-right `contains` scan is true exactly when the needle occurs at some index of the haystack (both directions) |
| `Text.Digits` | BabyFoodCareProject/Services/APIRouter.swift:56-57 | the digits of a natural number are non-empty, all decimal digits, and start with `0` only for zero |
| `Text.DecimalString` | BabyFoodCareProject/Services/APIRouter.swift:56-57 | `"\(id)"` starts with `-` exactly for negative ids and is otherwise made of digits |
| `Text.DigitsRoundTrip` | BabyFoodCareProject/Services/APIRouter.swift:56-57 | reading the digits of `n` back gives `n` |
| `Text.DecimalRoundTrip` | BabyFoodCareProject/Services/APIRouter.swift:56-57 | parsing the decimal rendering of any integer gives the integer back |
| `Text.DecimalStringInjective` | BabyFoodCareProject/Services/APIRouter.swift:56-57 | distinct integers have distinct decimal renderings |
| `Router.SchemeAndMethodAreFixed` | BabyFoodCareProject/Services/APIRouter.swift:25-30 | every route uses scheme `https`; its method is `GET` (lines 45-50) |
| `Router.HostByRoute` | BabyFoodCareProject/Services/APIRouter.swift:16-23 | the host is `davnopora.fun` exactly for `getProducts`, and `api.ratings.food.gov.uk` exactly for the other three routes |
| `Router.PathIdentifiesCase` | BabyFoodCareProject/Services/APIRouter.swift:32-43 | two routes have the same path if and only if they are the same enum case |
| `Router.ParametersByRoute` | BabyFoodCareProject/Services/APIRouter.swift:52-59 | the query is empty exactly for the routes other than `getEstablishments`; that route has one item named `localAuthorityId` whose value parses back to the id |
| `Router.EstablishmentsQueryInjective` | BabyFoodCareProject/Services/APIRouter.swift:56-57 | distinct authority ids give distinct query items |
| `Search.Filter` | BabyFoodCareProject/Modules/ProductsTab/ProductsModul/ProductsPresenter.swift:84 | the filter is never longer than the list, and a product is in it exactly when it is in the list and its lower-cased title contains the query |
| `Search.FilterIsSubsequence` | BabyFoodCareProject/Modules/ProductsTab/ProductsModul/ProductsPresenter.swift:84 | the filter keeps the products in their original relative order |
| `Search.FilterKeepsEveryCopy` | BabyFoodCareProject/Modules/ProductsTab/ProductsModul/ProductsPresenter.swift:84 | the filter holds every copy of a matching product that the list holds, and no copy of a product that does not match |
| `Search.SearchSpec` | BabyFoodCareProject/Modules/ProductsTab/ProductsModul/ProductsPresenter.swift:83-84 | a search result is an order-preserving subsequence of the list, no longer than it, and holds exactly the products whose lower-cased title has the lower-cased query as a substring (sound and complete), each as many times as the list holds it |
| `Search.FilterNoMatch` | BabyFoodCareProject/Modules/ProductsTab/ProductsModul/ProductsPresenter.swift:84 | when no product matches, the filter is empty |
| `Search.NoMatchShowsNothing` | BabyFoodCareProject/Modules/ProductsTab/ProductsModul/ProductsPresenter.swift:83-84 | a query that no lower-cased title contains yields an empty result |
| `Search.SearchIgnoresQueryCase` | BabyFoodCareProject/Modules/ProductsTab/ProductsModul/ProductsPresenter.swift:83 | a query and its lower-cased form give the same result |
| `Search.SearchAgreesAcrossCase` | BabyFoodCareProject/Modules/ProductsTab/ProductsModul/ProductsPresenter.swift:83-84 | two queries that differ only in letter case give identical results |
| `Presenter.ProductsPresenter.constructor` | BabyFoodCareProject/Modules/ProductsTab/ProductsModul/ProductsPresenter.swift:27-46 | a new presenter has no view, empty product lists and empty call logs |
| `Presenter.ProductsPresenter.GetData` | BabyFoodCareProject/Modules/ProductsTab/ProductsModul/ProductsPresenter.swift:49-60 | on success the fetched list replaces `products` and is shown with animation; on failure `products` and the view are untouched and one `.positive` toast with the load-failure key is shown |
| `Presenter.ProductsPresenter.ViewDidLoad` | BabyFoodCareProject/Modules/ProductsTab/ProductsModul/ProductsPresenter.swift:65-68 | the view is set up first, then the initial load has the effects above |
| `Presenter.ProductsPresenter.SearchProducts` | BabyFoodCareProject/Modules/ProductsTab/ProductsModul/ProductsPresenter.swift:82-86 | `filteredProducts` becomes the search result of `products`; that list is the one snapshot sent to the view and is what it now shows; `products` does not change |
| `Presenter.ProductsPresenter.ResetSearch` | BabyFoodCareProject/Modules/ProductsTab/ProductsModul/ProductsPresenter.swift:88-90 | the view is sent exactly `products` and now shows it; no presenter list changes |
| `Presenter.ProductsPresenter.RefreshData` | BabyFoodCareProject/Modules/ProductsTab/ProductsModul/ProductsPresenter.swift:92-106 | success replaces `products`, shows them, then ends refreshing and shows a `.positive` toast; failure keeps `products`, ends refreshing and shows a `.negative` toast; on both paths `endRefreshing` is called exactly once when a view is attached |
| `Presenter.ProductsPresenter.DidSelectProduct` | BabyFoodCareProject/Modules/ProductsTab/ProductsModul/ProductsPresenter.swift:111-113 | the selected id is handed to the coordinator, after all earlier ones |
| `Presenter.SearchThenReset` | BabyFoodCareProjectTests/ProductsTests.swift:110-125 | a search followed by a reset shows the original, unfiltered list |
| `ToastMock.MockToastService.constructor` | BabyFoodCareProjectTests/MockToastService.swift:14-18 | a new recorder is in its initial state (flag false, count 0, no last style or message, empty log) and satisfies the invariant |
| `ToastMock.MockToastService.ShowToast` | BabyFoodCareProjectTests/MockToastService.swift:21-27 | sets the flag, adds exactly one to the count, records style and message as the last ones, appends the call at the end of the log, and keeps the invariant (count = log length, flag iff count > 0, last = final log entry) |
| `ToastMock.MockToastService.Reset` | BabyFoodCareProjectTests/MockToastService.swift:30-36 | returns the recorder to its initial state |
| `ToastMock.ShowAfterReset` | BabyFoodCareProjectTests/ToastTests.swift:232-246 | one call after a reset leaves count 1 and records exactly that call |
| `ViewMock.MockProductsView.constructor` | BabyFoodCareProjectTests/MockProductsView.swift:12-16 | both flags false, count 0, empty last snapshot, not animating |
| `ViewMock.MockProductsView.ViewDidLoad` | BabyFoodCareProjectTests/MockProductsView.swift:18-20 | changes nothing |
| `ViewMock.MockProductsView.SetupInitialState` | BabyFoodCareProjectTests/MockProductsView.swift:22-24 | sets only `setupInitialStateCalled`, so the invariant is kept |
| `ViewMock.MockProductsView.ApplySnapshot` | BabyFoodCareProjectTests/MockProductsView.swift:26-31 | sets the flag, adds exactly one to the count, stores exactly the given list and animation flag, and establishes flag iff count > 0 |
| `ViewMock.MockProductsView.DidSelectProduct` | BabyFoodCareProjectTests/MockProductsView.swift:33-35 | changes nothing |
| `CacheMock.Lookup` | BabyFoodCareProjectTests/MockCacheService.swift:53 | a table answers a key exactly when the key is present, with the stored value |
| `CacheMock.MockCacheService.constructor` | BabyFoodCareProjectTests/MockCacheService.swift:16-40 | every flag false, no last keys, both counts 0, both switches off, both tables empty |
| `CacheMock.MockCacheService.Get` | BabyFoodCareProjectTests/MockCacheService.swift:44-54 | returns nothing while `shouldReturnNil` is set, whatever `storage` holds, else `storage`'s value for the key; always sets `getCalled`, records the key and adds exactly one to `getCallCount`, leaving the other records, both tables and both switches unchanged and the records consistent |
| `CacheMock.MockCacheService.GetStale` | BabyFoodCareProjectTests/MockCacheService.swift:56-65 | returns `staleStorage`'s value when `shouldReturnStale` is set, else `storage`'s; sets `getStaleCalled` and records the key; `getCallCount`, `getCalled` and both tables are unchanged |
| `CacheMock.MockCacheService.Set` | BabyFoodCareProjectTests/MockCacheService.swift:67-72 | `storage` changes only at the key, which now holds the value; `staleStorage` is unchanged; the set records are updated and the count grows by one |
| `CacheMock.MockCacheService.Invalidate` | BabyFoodCareProjectTests/MockCacheService.swift:74-79 | removes the key from both tables, so both reads miss it; every other key keeps its entry |
| `CacheMock.MockCacheService.InvalidateAll` | BabyFoodCareProjectTests/MockCacheService.swift:81-85 | both tables become empty, so every key misses |
| `CacheMock.MockCacheService.PreloadData` | BabyFoodCareProjectTests/MockCacheService.swift:90-92 | puts the value in `storage`, records no call and keeps the invariant |
| `CacheMock.MockCacheService.PreloadStaleData` | BabyFoodCareProjectTests/MockCacheService.swift:95-97 | puts the value in `staleStorage`, records no call and keeps the invariant |
| `CacheMock.MockCacheService.Reset` | BabyFoodCareProjectTests/MockCacheService.swift:100-115 | every call record, both switches and both tables return to their initial values |
| `CacheMock.SetThenGet` | BabyFoodCareProjectTests/CacheServiceTests.swift:39-50 | a value just stored is read back, unless `shouldReturnNil` is set |
| `CacheMock.InvalidateOneKeepsOther` | BabyFoodCareProjectTests/CacheServiceTests.swift:64-82 | after storing two keys and invalidating the first, the first misses and the second still returns its value |
| `CacheMock.InvalidateAllThenGet` | BabyFoodCareProjectTests/CacheServiceTests.swift:86-103 | after `invalidateAll`, both `get` and `getStale` miss on any key |

## Left out

- The real `CacheService`, `CacheKey` and `CacheEntry` (TTL expiry, LRU eviction, key canonicalisation, the disk tier) are not part of this model. Only the mock's behaviour is modelled; the expiry and eviction tests have no counterpart.
- Networking (`APIRequestDispatcher`, `APIClients`, `APIImageClient`, `MockAPIClient`, `Mockable`) is not modelled: a fetch is an input `FetchResult`, and the thrown error is dropped along with the `print` that logs it.
- `ProductsPresenter.fetchProductImage` is left out: it loads image bytes over the network and hands a `UIImage` to a cell.
- Swift concurrency (`Task {}`, `@MainActor`, actor isolation of `MockCacheService`) is not modelled: each operation is one sequential, atomic step.
- Text.Lowercased: folds only the ASCII letters A-Z, where Swift's `lowercased()` applies full Unicode case mapping; `contains` is exact character comparison without Unicode canonical equivalence.
- Text.DecimalString: renders unbounded integers; Swift's `Int` is 64-bit, which the router never exceeds.
- The search on an empty query is stated with the empty string contained in every title, so it yields the whole list; the view never issues it, because it calls `resetSearch` for an empty search bar.
- The UI (all `ProductsView` variants, cells, toast views, colours and layers), coordinators, assemblies, dependency injection and the build manifest are not modelled; the presenter's view, toast service and coordinator are call logs.
- `ToastStyle`'s colours and icon names are UI constants and are not modelled.
- The `Tabs/` copies of the products module are not compiled into the app target and are not modelled.
- The older VIPER `ProductsPresenter` in `Modules/ProductsModul` is compiled into the app but only forwards `viewDidLoad` to an interactor and the obtained products to the view; it is wiring and is not modelled.
- Counters are unbounded `nat`s; Swift traps on `Int` overflow, which no realistic call sequence reaches.
