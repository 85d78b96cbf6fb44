# ProductsApp core, modelled in Dafny

ProductsApp is a React Native product catalog. It fetches product pages from
a remote REST service and shows them in a list that can be filtered by
category, sorted by price or rating, refreshed and extended page by page.
Links of the form `productsapp://product/<id>` and
`productsapp://category/<name>` open a product or a category. This project
models the four pieces of logic behind that behaviour and proves properties
of them:

- **Sort engine** (`sorting.dfy`, module `Sorting`). `sortProducts` sorts a copy of
  the list with a numeric comparator. The model is a stable insertion sort.
  It is proved to be a permutation of the input, sorted by the option's key,
  and stable. Stability means every group of equal keys keeps its input
  order. The lemma `SortedStableUnique` shows that a sorted, stable
  rearrangement is unique. So the model returns exactly what any conforming
  `Array.prototype.sort` returns (ECMA-262, 2023 edition, section 23.1.3.30
  requires the sort to be stable).
- **Deep links** (`deep_linking.dfy`, module `DeepLinking`). This covers building a link,
  parsing it back and dispatching it to one of the two screens. The
  expo-linking URL parser, `encodeURIComponent` and `decodeURIComponent` are
  passed in as function values. The round-trip lemmas state what they need
  of them as two predicates:
  - `PathIsTextAfterScheme`: the path is all the text after
    `productsapp://`.
  - `EncodingIsReversible`: encoding a non-empty string gives a non-empty
    string with no `/`, and decoding gives the original back.
- **API client** (`api.dfy`, module `Api`). This covers which list URL a
  request goes to, the field-by-field product mappers, and how `apiRequest`
  turns every failure into one `ApiError(message, status?)`. The failure
  comes in as an abstract transport outcome: the fetch rejected, a non-ok
  status arrived, or the JSON body failed.
- **List screen state machine** (`product_list_screen.dfy`, module `ProductListScreen`).
  The class `Screen` holds the screen's state variables as fields. The
  asynchronous `loadProducts` is split into `StartLoad`, which runs before
  the request is awaited, and `CompleteLoad`, which runs when the request
  settles. Completions may arrive in any order and are applied as they
  arrive, as in the code.

Two helper modules hold shared pieces:

- `types.dfy`, module `Types`: the data model from the app's type
  declarations.
- `js_text.dfy`, module `JsText`: the JavaScript string built-ins the code
  relies on: integer-to-text in template literals, `parseInt(s, 10)`,
  `split('/')` and `filter(Boolean)`.

JavaScript truthiness is modelled explicitly. A `productId` of 0 and an
empty category string both count as absent (`TruthyInt`, `TruthyString`).

The refresh path behaves differently from what the list's own layout
suggests. The grid carries a `RefreshControl` bound to `isRefreshing`
(ProductListScreen.tsx:160-165), which suggests that a refresh shows only its
own indicator above the list. But every reset load also sets `isLoading`,
and on page 0 `isLoading` replaces the whole grid with the full-screen
spinner (line 150). So a refresh while the first page is shown brings up the
full-screen spinner, and the refresh indicator is never seen. The model
follows the code (`RefreshOnFirstPageShowsFullScreenSpinner`).

The round-trip lemmas for deep links rest on `PathIsTextAfterScheme`. This
is an unverified assumption about expo-linking's parser. Many URL parsers
read the first word after `productsapp://` as a host name. Under that
reading the path of `productsapp://product/1` is just `1`, and every link
`createDeepLink` builds would parse to null. `ParseDeepLink` itself is
modelled for any parser result; only the round trips depend on the
assumption.

## Model

| member | source | states |
|---|---|---|
| `Types.OrAbsent` | ProductsApp/src/screens/ProductListScreen.tsx:56 | `category \|\| undefined` keeps the category exactly when it is truthy, and gives no category otherwise |
| `JsText.NumberToString` | ProductsApp/src/utils/deepLinking.ts:8 | an integer written by a template literal is non-empty, has no `/`, and starts with `-` exactly when it is negative |
| `JsText.ParseIntOfNumberToString` | ProductsApp/src/utils/deepLinking.ts:32-33 | `parseInt(s, 10)` reads back every integer a template literal writes, also when text that does not start with a digit follows it |
| `JsText.ParseInt` | ProductsApp/src/utils/deepLinking.ts:32-33 | `parseInt(s, 10)` gives a number exactly when, after leading white space, `s` starts with a digit, or with a sign followed by a digit |
| `JsText.Split` | ProductsApp/src/utils/deepLinking.ts:26 | `split('/')` gives at least one piece, and no piece contains the separator |
| `JsText.JoinSplit` | ProductsApp/src/utils/deepLinking.ts:26 | joining the pieces of `split` with the separator gives back the original string, so nothing is lost |
| `JsText.NonEmpty` | ProductsApp/src/utils/deepLinking.ts:26 | `filter(Boolean)` keeps exactly the non-empty pieces and no others |
| `JsText.PathSegments` | ProductsApp/src/utils/deepLinking.ts:26 | every path segment is non-empty and contains no `/` |
| `JsText.TwoSegments` | ProductsApp/src/utils/deepLinking.ts:26-28 | `a/b` with non-empty, slash-free `a` and `b` splits into exactly the two segments `[a, b]` |
| `Sorting.StableSort` | ProductsApp/src/utils/sorting.ts:8-14 | the result is sorted by the comparator, is a permutation of the input (same multiset) and is stable |
| `Sorting.InsertSorted` | ProductsApp/src/utils/sorting.ts:8-14 | inserting into a sorted list keeps it sorted |
| `Sorting.InsertStable` | ProductsApp/src/utils/sorting.ts:8-14 | an insertion places the new product in front of every product with an equal key, so equal keys keep their order |
| `Sorting.SortProducts` | ProductsApp/src/utils/sorting.ts:3-17 | same length and same multiset as the input; for `price-asc`/`price-desc` non-decreasing/non-increasing price, for `rating-asc`/`rating-desc` non-decreasing/non-increasing rating, each stable; an unrecognised option returns the list unchanged |
| `Sorting.SortedStableUnique` | ProductsApp/src/utils/sorting.ts:8-14 | two sequences sorted by the same comparator, with the same order within every group of equal keys, are equal |
| `Sorting.SortProductsIsTheStableSort` | ProductsApp/src/utils/sorting.ts:3-17 | any sorted, stable rearrangement of the input under a known option equals `SortProducts`' result |
| `Sorting.GetSortOptionLabel` | ProductsApp/src/utils/sorting.ts:20-33 | the label is `'Default'` exactly when the option is not one of the four known ones |
| `Sorting.KnownLabelsDistinct` | ProductsApp/src/utils/sorting.ts:21-29 | the four known options have four different labels |
| `DeepLinking.CreateDeepLink` | ProductsApp/src/utils/deepLinking.ts:4-16 | every link starts with `productsapp://`, and the link is exactly that prefix when neither a truthy id nor a truthy category is given |
| `DeepLinking.ParseDeepLink` | ProductsApp/src/utils/deepLinking.ts:18-48 | a parsed link carries exactly one of `productId` and `category`; which paths give a link, and which link, is stated in both directions by `ParsedLinkShape`, `RecognizedLinksAreAccepted` and `UnrecognizedLinksAreNull` |
| `DeepLinking.ParsedLinkShape` | ProductsApp/src/utils/deepLinking.ts:22-41 | a parsed link came from a non-empty path of exactly two segments: `product` plus the integer `parseInt` reads, or `category` plus the decoded text |
| `DeepLinking.RecognizedLinksAreAccepted` | ProductsApp/src/utils/deepLinking.ts:26-40 | for every two-segment path: `product/<v>` gives the integer `parseInt` reads from `v` whenever it reads one; `category/<v>` gives the decoded `v`, and null when decoding throws |
| `DeepLinking.ParserExceptionIsNull` | ProductsApp/src/utils/deepLinking.ts:19-47 | an exception while parsing is caught, and the result is null |
| `DeepLinking.ParseIntWithLeadingZeros` | ProductsApp/src/utils/deepLinking.ts:32 | `parseInt('007', 10)` is 7 |
| `DeepLinking.LeadingZerosAccepted` | ProductsApp/src/utils/deepLinking.ts:26-36 | a path `product/007`, which `createDeepLink` never writes, opens product 7 |
| `DeepLinking.UnrecognizedLinksAreNull` | ProductsApp/src/utils/deepLinking.ts:22-43 | each of these gives null: no path, an empty path, a segment count other than 2, a first segment other than `product`/`category`, or `product/` with text `parseInt` rejects (never read as a category) |
| `DeepLinking.ProductLinkRoundTrip` | ProductsApp/src/utils/deepLinking.ts:4-36 | if the parser returns the text after the scheme, parsing the link built for a non-zero id gives that id alone, whatever category was also passed |
| `DeepLinking.CategoryLinkRoundTrip` | ProductsApp/src/utils/deepLinking.ts:4-40 | if the parser and the codec behave as stated, parsing the link built for a non-empty category (no truthy id) gives that category alone |
| `DeepLinking.EmptyLinkIsNull` | ProductsApp/src/utils/deepLinking.ts:4-24 | the bare `productsapp://` link built without parameters parses to null |
| `DeepLinking.DeepLinkTarget` | ProductsApp/src/utils/deepLinking.ts:54-71 | navigation happens exactly when the parse result has a truthy id or a truthy category; a truthy id goes to `ProductDetail` with that id, otherwise `ProductList` with the category |
| `DeepLinking.CreatedLinkDispatch` | ProductsApp/src/utils/deepLinking.ts:4-71 | end to end, a created link opens the screen its parameters name, and a link with neither parameter is not handled |
| `DeepLinking.Navigator.Navigate` | ProductsApp/src/utils/deepLinking.ts:61 | each `navigate` call is appended to the recorded calls |
| `DeepLinking.HandleDeepLink` | ProductsApp/src/utils/deepLinking.ts:50-72 | returns true exactly when there is a navigation target, and records exactly that one navigation; otherwise records nothing |
| `Api.EndpointUrl` | ProductsApp/src/services/api.ts:72-77 | every list URL ends with the same `skip=<skip>&limit=<limit>` arguments |
| `Api.SelectEndpoint` | ProductsApp/src/services/api.ts:72-78 | the category endpoint is chosen exactly when the category is truthy; search exactly when there is no truthy category and the search text is truthy |
| `Api.GetProductsUrl` | ProductsApp/src/services/api.ts:66-78 | the URL requested is the selected endpoint's URL with the given paging |
| `Api.SearchProductsUrl` | ProductsApp/src/services/api.ts:97-100 | `searchProducts` always requests the search endpoint, even for an empty query |
| `Api.CategoryWinsOverSearch` | ProductsApp/src/services/api.ts:74-75 | with a truthy category the URL is `/products/category/<category>?skip=..&limit=..`, whatever the search text |
| `Api.SearchWhenNoCategory` | ProductsApp/src/services/api.ts:72-78 | without a category, a truthy search requests the same URL as `searchProducts`, and otherwise the plain `/products` listing |
| `Api.DefaultListingUrl` | ProductsApp/src/services/api.ts:66-72 | the default arguments request `https://dummyjson.com/products?skip=0&limit=20` |
| `Api.FromApi` | ProductsApp/src/services/api.ts:41-53 | each of the eleven `Product` fields is copied unchanged |
| `Api.FromApiKeepsExactlyTheElevenFields` | ProductsApp/src/services/api.ts:41-53 | two raw products map to the same `Product` exactly when they agree on the eleven fields; other fields are dropped |
| `Api.FromApiList` | ProductsApp/src/services/api.ts:55-60 | the product count and order are kept, each product is mapped by `FromApi`, and `total`, `skip` and `limit` are copied |
| `Api.Normalize` | ProductsApp/src/services/api.ts:29-36 | an `ApiError` is rethrown unchanged; any other failure becomes an `ApiError` without status |
| `Api.ApiRequest` | ProductsApp/src/services/api.ts:16-37 | success exactly for an ok status with a parsed body, yielding that body; a non-ok status `n` gives `ApiError('HTTP error! status: n', n)`; a failure has a status exactly when it came from a non-ok response |
| `Api.ForeignFailureMessages` | ProductsApp/src/services/api.ts:33-35 | a failure not caused by the HTTP status carries the thrown error's message, or `'An unknown error occurred'` when the thrown value is not an `Error` |
| `Api.GetProducts` | ProductsApp/src/services/api.ts:80-81 | a completed `getProducts` yields the mapped page exactly when the request succeeded, and otherwise the request's error |
| `ProductListScreen.Screen.constructor` | ProductsApp/src/screens/ProductListScreen.tsx:32-42 | the initial state: no products, loading, no error, the route's category if truthy, `price-asc`, `hasMore`, page 0; no corrected load-more in flight |
| `ProductListScreen.Screen.StartLoad` | ProductsApp/src/screens/ProductListScreen.tsx:46-57 | requests offset `page*20` with limit 20 and drops a falsy category; a reset clears the error and sets `isLoading`; an append changes no state |
| `ProductListScreen.Screen.CompleteLoad` | ProductsApp/src/screens/ProductListScreen.tsx:59-76 | on success a reset replaces the products and an append sets them to old ++ page; `hasMore` becomes "the page has 20 items" and `currentPage` becomes the requested page. On failure only the error message is set. Afterwards both loading flags are false, and an append's completion also clears the flag of the corrected load-more |
| `ProductListScreen.Screen.CompleteLoadCategories` | ProductsApp/src/screens/ProductListScreen.tsx:79-87 | the fetched categories, or the fixed twenty-name fallback when the request failed |
| `ProductListScreen.Screen.Mount` | ProductsApp/src/screens/ProductListScreen.tsx:117-120 | the mount effect starts a reset load of page 0 with no category |
| `ProductListScreen.Screen.MountWithRouteCategory` | ProductsApp/src/screens/ProductListScreen.tsx:37-39 | corrected mount effect: the first load uses the category the screen shows as selected |
| `ProductListScreen.Screen.HandleRefresh` | ProductsApp/src/screens/ProductListScreen.tsx:89-92 | sets `isRefreshing` and starts a reset load of page 0 for the selected category |
| `ProductListScreen.Screen.HandleCategorySelect` | ProductsApp/src/screens/ProductListScreen.tsx:94-97 | selects the category and starts a reset load of page 0 for it |
| `ProductListScreen.Screen.HandleSortChange` | ProductsApp/src/screens/ProductListScreen.tsx:99-101 | only `sortBy` changes, and no load starts; the grid is re-sorted by the new option (see `Screen.View`) |
| `ProductListScreen.Screen.HandleLoadMore` | ProductsApp/src/screens/ProductListScreen.tsx:107-111 | an append load of `currentPage+1` for the selected category exactly when `!isLoading && hasMore`; otherwise nothing changes. The state is left unchanged in both cases |
| `ProductListScreen.Screen.HandleLoadMoreOnce` | ProductsApp/src/screens/ProductListScreen.tsx:107-111 | corrected load-more: the same request, under the guard extended by "no load-more in flight"; it records the append as in flight in its own flag, so a second call issues nothing, while `isLoading` and the rest of the state stay unchanged |
| `ProductListScreen.Screen.HandleRetry` | ProductsApp/src/screens/ProductListScreen.tsx:113-115 | starts a reset load of page 0 for the selected category |
| `ProductListScreen.Screen.View` | ProductsApp/src/screens/ProductListScreen.tsx:122-172 | error view, showing the error message, exactly when `error` is truthy on page 0; full-screen spinner exactly when loading on page 0 without such an error; otherwise the grid shows `sortProducts(products, sortBy)` (a permutation of the products), the refresh indicator, and the footer spinner while loading |
| `ProductListScreen.GridIsTheStableSortOfProducts` | ProductsApp/src/screens/ProductListScreen.tsx:122-154 | any sorted, stable rearrangement of the loaded products under the selected option is exactly what the grid shows |
| `ProductListScreen.RefreshOnFirstPageShowsFullScreenSpinner` | ProductsApp/src/screens/ProductListScreen.tsx:89-151 | a refresh in progress on page 0 with no error shows the full-screen spinner |
| `ProductListScreen.LoadMoreTwiceAppendsPageTwice` | ProductsApp/src/screens/ProductListScreen.tsx:107-111 | two end-of-list events after a full first page both request page 1, and page 1 is appended twice |
| `ProductListScreen.LoadMoreOnceAppendsPageOnce` | ProductsApp/src/screens/ProductListScreen.tsx:107-111 | with the corrected handler the second event requests nothing and page 1 is appended once; while page 1 loads the grid still shows the sorted first page, and afterwards the next event requests page 2 |
| `ProductListScreen.MountIgnoresRouteCategory` | ProductsApp/src/screens/ProductListScreen.tsx:37-120 | a screen opened for `laptops` shows `laptops` as selected, but its first load has no category |

## Findings

| source | as written | input that shows it | evidently intended | confidence | as-written member | corrected member |
|---|---|---|---|---|---|---|
| ProductsApp/src/screens/ProductListScreen.tsx:107-111 | an append load never sets `isLoading`, so the guard `!isLoading && hasMore` passes again while a load-more is in flight | a full first page of 20 products, then two end-of-list events before the page-1 response arrives: page 1 is requested twice and appended twice | a load-more in flight blocks further ones, which is what the `!isLoading` guard is evidently for. Setting `isLoading` for the append is not the fix: on page 0 it would replace the grid with the full-screen spinner (line 150). The correction records the append in a separate flag that the guard checks and the view ignores. `LoadMoreOnceAppendsPageOnce` shows page 1 appended once, the grid kept on screen and page 2 requested next | medium; not executed | `ProductListScreen.LoadMoreTwiceAppendsPageTwice` | `ProductListScreen.Screen.HandleLoadMoreOnce` |
| ProductsApp/src/screens/ProductListScreen.tsx:117-120 | the first load passes `null` as the category, although `selectedCategory` was initialised from the route (line 38) | the list screen opened with route parameter `category: 'laptops'`: the `laptops` chip is selected, but every category is loaded | the first load uses the selected category | medium; not executed | `ProductListScreen.MountIgnoresRouteCategory` | `ProductListScreen.Screen.MountWithRouteCategory` |

## Left out

- Rendering, styles and layout: the JSX of both screens, `ProductCard`, `FilterBar`, `ErrorView` and `DeepLinkDemo`. Only the conditions that choose what the list screen shows are modelled, in `Screen.View`.
- The product detail screen and the calendar/notification service. They are a single fetch-and-display screen and wrappers around native device calls.
- The navigation container's linking configuration in `AppNavigator.tsx`. The routing framework does that routing.
- `getProduct` and `getCategories`: each requests one fixed URL through `apiRequest`. Only the error normalisation they share is modelled.
- `fetch` and `response.json()`: their outcome is an input (`Api.Transport`). Timeouts and retries belong to the transport, and the model does not represent them.
- `Linking.parse`, `encodeURIComponent` and `decodeURIComponent`: they are function values in `DeepLinking.UriFunctions`, and their behaviour is only assumed as stated. `encodeURIComponent` throwing on a lone surrogate is not modelled.
- `JsText.NumberToString`: covers integral numbers only. JavaScript writes values of 10^21 and above in exponent form, and non-integral ids with a fraction; neither is modelled.
- `JsText.ParseInt`: returns the exact integer. JavaScript loses precision above 2^53 and yields `Infinity` for very long digit runs; neither is modelled.
- `Sorting.SortProducts`: prices and ratings are real numbers, so `NaN` keys are not modelled. With a `NaN` key the comparator is inconsistent and JavaScript's sort order is implementation-defined.
- Concurrency: overlapping loads are modelled as separate start and completion events, applied in the order they arrive. Two interleavings are proved: two load-more events before the first response (`LoadMoreTwiceAppendsPageTwice`, and `LoadMoreOnceAppendsPageOnce` for the correction). Nothing general is proved about other interleavings, such as a reset completing before an earlier append. React's batching of state updates and handlers reading stale closure values are not modelled.
- `Api.FromApi`: the raw product is typed `any` in the code, while the model assumes all eleven fields are present and well typed. In JavaScript a missing field is copied as `undefined`, and a field of the wrong type is copied as it is. Neither is modelled.
- `Api.GetProducts`: "the mapped page exactly when the request succeeded" holds only for a well-shaped body. If `products` is not an array, `.map` throws a `TypeError` outside `apiRequest`'s `try` (api.ts:56, 81). `getProducts` then rejects with something that is not an `ApiError`. The screen receives that as `LoadFailure.OtherFailure` and shows the generic message. The model does not derive this case from the body.
- `formatPrice`, `formatRating` and the `console.error` logging.
