/** The product API client: which URL each list request goes to, how raw
    JSON products are mapped to `Product`, and how transport failures are
    normalised into a single `ApiError`.

    `fetch` and `response.json()` are not part of this model: a request's
    outcome is given as a `Transport` value, and `encodeURIComponent` is
    passed in as a function value. */
module Api {
  import opened Types
  import opened JsText

  const BaseApiUrl: string := "https://dummyjson.com"
  const DefaultSkip: int := 0
  const DefaultLimit: int := 20

  // ---------------------------------------------------------------------
  // URL selection

  /** The paging arguments every list URL ends with. */
  function PageQuery(skip: int, limit: int): string {
    "skip=" + NumberToString(skip) + "&limit=" + NumberToString(limit)
  }

  /** The three list endpoints. */
  datatype ListEndpoint = AllProducts | ByCategory(category: string) | Search(query: string)

  function EndpointUrl(encode: string -> string, endpoint: ListEndpoint, skip: int, limit: int): (url: string)
    ensures |url| >= |PageQuery(skip, limit)|
    ensures url[|url| - |PageQuery(skip, limit)|..] == PageQuery(skip, limit)
  {
    var query := PageQuery(skip, limit);
    var url := match endpoint
      case AllProducts => BaseApiUrl + "/products?" + query
      case ByCategory(c) => BaseApiUrl + "/products/category/" + c + "?" + query
      case Search(q) => BaseApiUrl + "/products/search?q=" + encode(q) + "&" + query;
    assert url == url[..|url| - |query|] + query;
    url
  }

  /** `getProducts`' choice of endpoint: a truthy category wins, then a
      truthy search text, then the plain listing. */
  function SelectEndpoint(category: Option<string>, search: Option<string>): (e: ListEndpoint)
    ensures e.ByCategory? <==> TruthyString(category)
    ensures e.Search? <==> !TruthyString(category) && TruthyString(search)
    ensures e.ByCategory? ==> Some(e.category) == category
    ensures e.Search? ==> Some(e.query) == search
  {
    if TruthyString(category) then ByCategory(category.value)
    else if TruthyString(search) then Search(search.value)
    else AllProducts
  }

  /** The URL `getProducts(skip, limit, category, search)` requests. */
  function GetProductsUrl(encode: string -> string, skip: int := DefaultSkip, limit: int := DefaultLimit,
                          category: Option<string> := None, search: Option<string> := None): (url: string)
    ensures url == EndpointUrl(encode, SelectEndpoint(category, search), skip, limit)
  {
    var query := PageQuery(skip, limit);
    if TruthyString(category) then
      BaseApiUrl + "/products/category/" + category.value + "?" + query
    else if TruthyString(search) then
      BaseApiUrl + "/products/search?q=" + encode(search.value) + "&" + query
    else
      BaseApiUrl + "/products?" + query
  }

  /** The URL `searchProducts(query, skip, limit)` requests: always the
      search endpoint, even for an empty query. */
  function SearchProductsUrl(encode: string -> string, query: string, skip: int := DefaultSkip,
                             limit: int := DefaultLimit): (url: string)
    ensures url == EndpointUrl(encode, Search(query), skip, limit)
  {
    BaseApiUrl + "/products/search?q=" + encode(query) + "&" + PageQuery(skip, limit)
  }

  /** A truthy category decides the URL on its own: the search text is
      ignored. */
  lemma CategoryWinsOverSearch(encode: string -> string, skip: int, limit: int,
                               category: string, search1: Option<string>, search2: Option<string>)
    requires category != ""
    ensures GetProductsUrl(encode, skip, limit, Some(category), search1)
         == GetProductsUrl(encode, skip, limit, Some(category), search2)
         == BaseApiUrl + "/products/category/" + category + "?" + PageQuery(skip, limit)
  {
  }

  /** Without a category, `getProducts` with a truthy search text requests
      the same URL as `searchProducts`; with neither it lists everything. */
  lemma SearchWhenNoCategory(encode: string -> string, skip: int, limit: int, search: Option<string>)
    ensures TruthyString(search) ==>
      GetProductsUrl(encode, skip, limit, None, search) == SearchProductsUrl(encode, search.value, skip, limit)
    ensures !TruthyString(search) ==>
      GetProductsUrl(encode, skip, limit, None, search) == BaseApiUrl + "/products?" + PageQuery(skip, limit)
  {
  }

  /** The default paging arguments as they appear in the URL. */
  lemma DefaultPageQuery()
    ensures PageQuery(DefaultSkip, DefaultLimit) == "skip=0&limit=20"
  {
    assert NumberToString(0) == "0";
    assert NumberToString(20) == "20" by {
      assert NatToDecimal(2) == "2";
    }
  }

  /** By default `getProducts` lists from offset 0 in pages of 20. */
  lemma DefaultListingUrl(encode: string -> string)
    ensures GetProductsUrl(encode) == BaseApiUrl + "/products?skip=0&limit=20"
  {
    DefaultPageQuery();
    assert "/products?" + "skip=0&limit=20" == "/products?skip=0&limit=20";
  }

  // ---------------------------------------------------------------------
  // Response mapping

  /** A product as the remote service sends it: the eleven fields the app
      keeps, and whatever other fields it also sends. */
  datatype ApiProduct = ApiProduct(
    id: int,
    title: string,
    description: string,
    price: real,
    discountPercentage: real,
    rating: real,
    stock: int,
    brand: string,
    category: string,
    thumbnail: string,
    images: seq<string>,
    otherFields: map<string, string>)

  datatype ApiProductsResponse = ApiProductsResponse(
    products: seq<ApiProduct>,
    total: int,
    skip: int,
    limit: int)

  /** `productMapper.fromApi`: copies the eleven product fields. */
  function FromApi(a: ApiProduct): (p: Product)
    ensures p.id == a.id && p.title == a.title && p.description == a.description
    ensures p.price == a.price && p.discountPercentage == a.discountPercentage && p.rating == a.rating
    ensures p.stock == a.stock && p.brand == a.brand && p.category == a.category
    ensures p.thumbnail == a.thumbnail && p.images == a.images
  {
    Product(a.id, a.title, a.description, a.price, a.discountPercentage, a.rating,
            a.stock, a.brand, a.category, a.thumbnail, a.images)
  }

  /** Two raw products map to the same `Product` exactly when they agree on
      the eleven copied fields: nothing is lost from them and nothing else
      matters. */
  lemma FromApiKeepsExactlyTheElevenFields(a: ApiProduct, b: ApiProduct)
    ensures FromApi(a) == FromApi(b) <==> a.(otherFields := map[]) == b.(otherFields := map[])
  {
    if FromApi(a) == FromApi(b) {
      var p := FromApi(a);
      assert a.(otherFields := map[]) == ApiProduct(p.id, p.title, p.description, p.price,
        p.discountPercentage, p.rating, p.stock, p.brand, p.category, p.thumbnail, p.images, map[]);
    }
  }

  /** `productMapper.fromApiList`: maps every product in order and copies
      the paging metadata. */
  function FromApiList(r: ApiProductsResponse): (page: ProductsResponse)
    ensures |page.products| == |r.products|
    ensures forall i :: 0 <= i < |r.products| ==> page.products[i] == FromApi(r.products[i])
    ensures page.total == r.total && page.skip == r.skip && page.limit == r.limit
  {
    ProductsResponse(seq(|r.products|, i requires 0 <= i < |r.products| => FromApi(r.products[i])),
                     r.total, r.skip, r.limit)
  }

  // ---------------------------------------------------------------------
  // Error normalisation in apiRequest

  /** `ApiError(message, status?)`. */
  datatype ApiError = ApiError(message: string, status: Option<int>)

  /** A failure raised by `fetch` or `response.json()` themselves: an
      `Error` with a message, or a thrown value that is not an `Error`. */
  datatype ForeignFailure = ErrorWithMessage(message: string) | NonErrorValue

  /** What the inside of `apiRequest`'s `try` block can throw. */
  datatype Thrown = ThrownApiError(apiError: ApiError) | ThrownForeign(failure: ForeignFailure)

  /** What `response.json()` yields. */
  datatype Body<T> = Json(value: T) | JsonFailed(failure: ForeignFailure)

  /** The outcome of `fetch(url)`: it rejects, or a response with a status
      code and a body arrives. */
  datatype Transport<T> = Rejected(failure: ForeignFailure) | Responded(status: int, body: Body<T>)

  datatype Result<T> = Success(value: T) | Failure(error: ApiError)

  /** `response.ok`: a status in the range 200-299. */
  predicate IsOk(status: int) {
    200 <= status <= 299
  }

  function HttpErrorMessage(status: int): string {
    "HTTP error! status: " + NumberToString(status)
  }

  /** The `catch` clause: an `ApiError` is rethrown as it is; anything else
      becomes an `ApiError` without status. */
  function Normalize(thrown: Thrown): (e: ApiError)
    ensures thrown.ThrownForeign? ==> e.status.None?
    ensures thrown.ThrownApiError? ==> e == thrown.apiError
  {
    match thrown
    case ThrownApiError(apiError) => apiError
    case ThrownForeign(ErrorWithMessage(message)) => ApiError(message, None)
    case ThrownForeign(NonErrorValue) => ApiError("An unknown error occurred", None)
  }

  /** `apiRequest`: the parsed body of an ok response, or a normalised
      error. */
  function ApiRequest<T>(transport: Transport<T>): (r: Result<T>)
    ensures r.Success? <==> transport.Responded? && IsOk(transport.status) && transport.body.Json?
    ensures r.Success? ==> r.value == transport.body.value
    ensures transport.Responded? && !IsOk(transport.status) ==>
      r == Failure(ApiError(HttpErrorMessage(transport.status), Some(transport.status)))
    ensures r.Failure? ==> (r.error.status.Some? <==> transport.Responded? && !IsOk(transport.status))
  {
    var attempt: Result<T> :=
      match transport
      case Rejected(failure) => Failure(Normalize(ThrownForeign(failure)))
      case Responded(status, body) =>
        if !IsOk(status) then
          Failure(Normalize(ThrownApiError(ApiError(HttpErrorMessage(status), Some(status)))))
        else
          match body
          case Json(value) => Success(value)
          case JsonFailed(failure) => Failure(Normalize(ThrownForeign(failure)));
    attempt
  }

  /** The message of every error that does not come from an HTTP status:
      the foreign error's own message, or the fixed fallback. */
  lemma ForeignFailureMessages(transport: Transport<ApiProductsResponse>)
    requires ApiRequest(transport).Failure?
    requires transport.Rejected? || IsOk(transport.status)
    ensures var failure := if transport.Rejected? then transport.failure else transport.body.failure;
      ApiRequest(transport).error.message ==
        (if failure.ErrorWithMessage? then failure.message else "An unknown error occurred")
  {
  }

  /** `getProducts` once its request has completed: the mapped page, or
      the normalised error. */
  function GetProducts(transport: Transport<ApiProductsResponse>): (r: Result<ProductsResponse>)
    ensures r.Success? <==> ApiRequest(transport).Success?
    ensures r.Success? ==> r.value == FromApiList(ApiRequest(transport).value)
    ensures r.Failure? ==> r.error == ApiRequest(transport).error
  {
    match ApiRequest(transport)
    case Success(raw) => Success(FromApiList(raw))
    case Failure(e) => Failure(e)
  }
}
