/** The product list screen's state machine: the accumulated products, the
    loading, refreshing and error flags, the selected category and sort
    option, and the paging counters, updated by the screen's handlers.

    The asynchronous `loadProducts` is split into `StartLoad`, the part that
    runs before the request is awaited, and `CompleteLoad`, the part that
    runs when the request settles. Several loads may be in flight; each
    completion is applied when it arrives, in whatever order, with no check
    that it is still the latest. */
module ProductListScreen {
  import opened Types
  import opened Api
  import Sorting

  const ItemsPerPage: int := 20

  const GenericLoadError: string := "Failed to load products. Please try again."

  /** The categories shown when the category request fails. */
  const FallbackCategories: seq<string> := [
    "smartphones", "laptops", "fragrances", "skincare", "groceries", "home-decoration",
    "furniture", "tops", "womens-dresses", "womens-shoes", "mens-shirts", "mens-shoes",
    "mens-watches", "womens-watches", "womens-bags", "womens-jewellery", "sunglasses",
    "automotive", "motorcycle", "lighting"]

  /** A `loadProducts(page, category, reset)` call in flight, with the
      arguments it passed to `getProducts(skip, limit, category)`. */
  datatype LoadRequest = LoadRequest(page: nat, reset: bool, skip: int, limit: int, category: Option<string>)

  /** What `loadProducts` can catch: an `ApiError`, or anything else. */
  datatype LoadFailure = LoadApiError(error: ApiError) | OtherFailure

  /** How a request settles. */
  datatype LoadOutcome = Loaded(response: ProductsResponse) | LoadFailed(failure: LoadFailure)

  /** The message stored in `error` for a failed load. */
  function FailureMessage(failure: LoadFailure): string {
    match failure
    case LoadApiError(e) => e.message
    case OtherFailure => GenericLoadError
  }

  /** What the screen renders. */
  datatype ScreenView =
    | ErrorView(message: string)
    | FullScreenSpinner
    | ProductGrid(items: seq<Product>, refreshing: bool, footerSpinner: bool)

  class Screen {
    var products: seq<Product>
    var categories: seq<string>
    var isLoading: bool
    var isRefreshing: bool
    var error: Option<string>
    var selectedCategory: Option<string>
    var sortBy: SortOption
    var hasMore: bool
    var currentPage: nat
    /** Set only by the corrected `HandleLoadMoreOnce` while its append is
        in flight; the code as written has no such state, and in its flows
        this stays false. */
    var loadingMore: bool

    /** The pull-to-refresh indicator is only ever on while a reset load
        is marked as loading. */
    ghost predicate Valid()
      reads this
    {
      isRefreshing ==> isLoading
    }

    /** The initial state; the category comes from the route parameters. */
    constructor (routeCategory: Option<string>)
      ensures Valid()
      ensures products == [] && categories == [] && isLoading && !isRefreshing && error == None
      ensures selectedCategory == OrAbsent(routeCategory) && sortBy == PriceAsc
      ensures hasMore && currentPage == 0 && !loadingMore
    {
      products := [];
      categories := [];
      isLoading := true;
      isRefreshing := false;
      error := None;
      selectedCategory := OrAbsent(routeCategory);
      sortBy := PriceAsc;
      hasMore := true;
      currentPage := 0;
      loadingMore := false;
    }

    /** The synchronous part of `loadProducts`: a reset clears the error and
        marks the screen as loading; an append changes nothing. The request
        asks for `ItemsPerPage` items at offset `page * ItemsPerPage`, with
        an absent or empty category sent as no category. */
    method StartLoad(page: nat, category: Option<string>, reset: bool) returns (request: LoadRequest)
      requires reset || Valid()
      modifies this
      ensures Valid()
      ensures request == LoadRequest(page, reset, page * ItemsPerPage, ItemsPerPage, OrAbsent(category))
      ensures reset ==> error == None && isLoading
      ensures !reset ==> error == old(error) && isLoading == old(isLoading)
      ensures products == old(products) && categories == old(categories)
      ensures isRefreshing == old(isRefreshing) && selectedCategory == old(selectedCategory)
      ensures sortBy == old(sortBy) && hasMore == old(hasMore) && currentPage == old(currentPage)
      ensures loadingMore == old(loadingMore)
    {
      if reset {
        error := None;
        isLoading := true;
      }
      request := LoadRequest(page, reset, page * ItemsPerPage, ItemsPerPage, OrAbsent(category));
    }

    /** The rest of `loadProducts`, once `request` has settled: on success a
        reset replaces the products and an append adds the page after them,
        `hasMore` records whether the page was full and `currentPage` becomes
        the requested page; on failure only the error is set. Either way
        both loading flags are cleared. An append's completion also clears
        `loadingMore`, which only the corrected load-more handler sets. */
    method CompleteLoad(request: LoadRequest, outcome: LoadOutcome)
      requires Valid()
      modifies this
      ensures Valid()
      ensures outcome.Loaded? ==>
        var page := outcome.response.products;
        && products == (if request.reset then page else old(products) + page)
        && hasMore == (|page| == ItemsPerPage)
        && currentPage == request.page
        && error == old(error)
      ensures outcome.LoadFailed? ==>
        && error == Some(FailureMessage(outcome.failure))
        && products == old(products) && hasMore == old(hasMore) && currentPage == old(currentPage)
      ensures !isLoading && !isRefreshing
      ensures categories == old(categories) && selectedCategory == old(selectedCategory)
      ensures sortBy == old(sortBy)
      ensures loadingMore == (if request.reset then old(loadingMore) else false)
    {
      match outcome {
        case Loaded(response) =>
          if request.reset {
            products := response.products;
          } else {
            products := products + response.products;
          }
          hasMore := |response.products| == ItemsPerPage;
          currentPage := request.page;
        case LoadFailed(failure) =>
          error := Some(FailureMessage(failure));
      }
      isLoading := false;
      isRefreshing := false;
      if !request.reset {
        loadingMore := false;
      }
    }

    /** `loadCategories` once its request has settled: the fetched list, or
        the fixed fallback list when the request failed. */
    method CompleteLoadCategories(outcome: Api.Result<seq<string>>)
      requires Valid()
      modifies this
      ensures Valid()
      ensures categories == (if outcome.Success? then outcome.value else FallbackCategories)
      ensures products == old(products) && isLoading == old(isLoading)
      ensures isRefreshing == old(isRefreshing) && error == old(error)
      ensures selectedCategory == old(selectedCategory) && sortBy == old(sortBy)
      ensures hasMore == old(hasMore) && currentPage == old(currentPage)
      ensures loadingMore == old(loadingMore)
    {
      match outcome
      case Success(data) => categories := data;
      case Failure(_) => categories := FallbackCategories;
    }

    /** The mount effect as written: a reset load of page 0 with no
        category, whatever category the route selected. */
    method Mount() returns (request: LoadRequest)
      requires Valid()
      modifies this
      ensures Valid()
      ensures request == LoadRequest(0, true, 0, ItemsPerPage, None)
      ensures error == None && isLoading
      ensures products == old(products) && categories == old(categories)
      ensures isRefreshing == old(isRefreshing) && selectedCategory == old(selectedCategory)
      ensures sortBy == old(sortBy) && hasMore == old(hasMore) && currentPage == old(currentPage)
      ensures loadingMore == old(loadingMore)
    {
      request := StartLoad(0, None, true);
    }

    /** The mount effect loading the category the screen shows as selected. */
    method MountWithRouteCategory() returns (request: LoadRequest)
      requires Valid()
      modifies this
      ensures Valid()
      ensures request == LoadRequest(0, true, 0, ItemsPerPage, OrAbsent(selectedCategory))
      ensures request.category == selectedCategory || !TruthyString(selectedCategory)
      ensures error == None && isLoading
      ensures products == old(products) && categories == old(categories)
      ensures isRefreshing == old(isRefreshing) && selectedCategory == old(selectedCategory)
      ensures sortBy == old(sortBy) && hasMore == old(hasMore) && currentPage == old(currentPage)
      ensures loadingMore == old(loadingMore)
    {
      request := StartLoad(0, selectedCategory, true);
    }

    /** `handleRefresh`: turns the refresh indicator on and reloads page 0
        of the selected category. */
    method HandleRefresh() returns (request: LoadRequest)
      requires Valid()
      modifies this
      ensures Valid()
      ensures request == LoadRequest(0, true, 0, ItemsPerPage, OrAbsent(selectedCategory))
      ensures isRefreshing && isLoading && error == None
      ensures products == old(products) && categories == old(categories)
      ensures selectedCategory == old(selectedCategory) && sortBy == old(sortBy)
      ensures hasMore == old(hasMore) && currentPage == old(currentPage)
      ensures loadingMore == old(loadingMore)
    {
      isRefreshing := true;
      request := StartLoad(0, selectedCategory, true);
    }

    /** `handleCategorySelect`: selects the category (absent for "all") and
        reloads page 0 for it. */
    method HandleCategorySelect(category: Option<string>) returns (request: LoadRequest)
      requires Valid()
      modifies this
      ensures Valid()
      ensures selectedCategory == category
      ensures request == LoadRequest(0, true, 0, ItemsPerPage, OrAbsent(category))
      ensures isLoading && error == None
      ensures products == old(products) && categories == old(categories)
      ensures isRefreshing == old(isRefreshing) && sortBy == old(sortBy)
      ensures hasMore == old(hasMore) && currentPage == old(currentPage)
      ensures loadingMore == old(loadingMore)
    {
      selectedCategory := category;
      request := StartLoad(0, category, true);
    }

    /** `handleSortChange`: only the sort option changes; nothing is
        fetched. */
    method HandleSortChange(newSortBy: SortOption)
      requires Valid()
      modifies this
      ensures Valid()
      ensures sortBy == newSortBy
      ensures products == old(products) && categories == old(categories)
      ensures isLoading == old(isLoading) && isRefreshing == old(isRefreshing)
      ensures error == old(error) && selectedCategory == old(selectedCategory)
      ensures hasMore == old(hasMore) && currentPage == old(currentPage)
      ensures loadingMore == old(loadingMore)
    {
      sortBy := newSortBy;
    }

    /** `handleLoadMore` as written: when not loading and more pages may
        exist, an append load of the next page of the selected category;
        otherwise nothing. The append does not set `isLoading`, so the guard
        still passes on the next call. */
    method HandleLoadMore() returns (request: Option<LoadRequest>)
      requires Valid()
      modifies this
      ensures Valid()
      ensures request.Some? <==> !old(isLoading) && old(hasMore)
      ensures request.Some? ==>
        request.value == LoadRequest(old(currentPage) + 1, false, (old(currentPage) + 1) * ItemsPerPage,
                                     ItemsPerPage, OrAbsent(old(selectedCategory)))
      ensures products == old(products) && categories == old(categories)
      ensures isLoading == old(isLoading) && isRefreshing == old(isRefreshing)
      ensures error == old(error) && selectedCategory == old(selectedCategory)
      ensures sortBy == old(sortBy) && hasMore == old(hasMore) && currentPage == old(currentPage)
      ensures loadingMore == old(loadingMore)
    {
      if !isLoading && hasMore {
        var r := StartLoad(currentPage + 1, selectedCategory, false);
        request := Some(r);
      } else {
        request := None;
      }
    }

    /** `handleLoadMore` with the append recorded as in flight: the guard
        also requires that no load-more is in flight, so a second end-of-list
        event before the response issues nothing. The flag is separate from
        `isLoading`, so the grid stays on screen while the page loads. */
    method HandleLoadMoreOnce() returns (request: Option<LoadRequest>)
      requires Valid()
      modifies this
      ensures Valid()
      ensures request.Some? <==> !old(isLoading) && !old(loadingMore) && old(hasMore)
      ensures request.Some? ==>
        request.value == LoadRequest(old(currentPage) + 1, false, (old(currentPage) + 1) * ItemsPerPage,
                                     ItemsPerPage, OrAbsent(old(selectedCategory)))
      ensures loadingMore == (request.Some? || old(loadingMore))
      ensures products == old(products) && categories == old(categories)
      ensures isLoading == old(isLoading) && isRefreshing == old(isRefreshing)
      ensures error == old(error) && selectedCategory == old(selectedCategory)
      ensures sortBy == old(sortBy) && hasMore == old(hasMore) && currentPage == old(currentPage)
    {
      if !isLoading && !loadingMore && hasMore {
        loadingMore := true;
        var r := StartLoad(currentPage + 1, selectedCategory, false);
        request := Some(r);
      } else {
        request := None;
      }
    }

    /** `handleRetry`: reloads page 0 of the selected category. */
    method HandleRetry() returns (request: LoadRequest)
      requires Valid()
      modifies this
      ensures Valid()
      ensures request == LoadRequest(0, true, 0, ItemsPerPage, OrAbsent(selectedCategory))
      ensures isLoading && error == None
      ensures products == old(products) && categories == old(categories)
      ensures isRefreshing == old(isRefreshing) && selectedCategory == old(selectedCategory)
      ensures sortBy == old(sortBy) && hasMore == old(hasMore) && currentPage == old(currentPage)
      ensures loadingMore == old(loadingMore)
    {
      request := StartLoad(0, selectedCategory, true);
    }

    /** What the screen renders: the error view for an error on the first
        page, else the full-screen spinner while loading the first page, else
        the product grid in sorted order, with the footer spinner while
        loading a later page. */
    function View(): (v: ScreenView)
      reads this
      ensures v.ErrorView? <==> TruthyString(error) && currentPage == 0
      ensures v.ErrorView? ==> Some(v.message) == error
      ensures v.FullScreenSpinner? <==> !TruthyString(error) && isLoading && currentPage == 0
      ensures v.ProductGrid? ==>
        && v.items == Sorting.SortProducts(products, sortBy)
        && multiset(v.items) == multiset(products)
        && v.refreshing == isRefreshing
        && (v.footerSpinner <==> isLoading)
    {
      if TruthyString(error) && currentPage == 0 then ErrorView(error.value)
      else if isLoading && currentPage == 0 then FullScreenSpinner
      else ProductGrid(Sorting.SortProducts(products, sortBy), isRefreshing,
                       !(!isLoading || currentPage == 0))
    }
  }

  /** A pull-to-refresh while the first page is shown (and no error is
      pending) replaces the grid with the full-screen spinner: a reset load
      always sets `isLoading`, and the refresh indicator is never shown on
      its own. */
  lemma RefreshOnFirstPageShowsFullScreenSpinner(s: Screen)
    requires s.Valid() && s.isRefreshing
    requires s.currentPage == 0 && !TruthyString(s.error)
    ensures s.View() == FullScreenSpinner
  {
  }

  /** Counterexample for `HandleLoadMore`: from a full first page, two
      end-of-list events before the first response arrives fetch page 1
      twice, and its products end up in the list twice. */
  method LoadMoreTwiceAppendsPageTwice(firstPage: seq<Product>, secondPage: seq<Product>)
    returns (s: Screen, first: Option<LoadRequest>, second: Option<LoadRequest>)
    requires |firstPage| == ItemsPerPage
    ensures first.Some? && second.Some? && first == second
    ensures first.value.page == 1
    ensures s.products == firstPage + secondPage + secondPage
  {
    s := new Screen(None);
    var initial := s.Mount();
    s.CompleteLoad(initial, Loaded(ProductsResponse(firstPage, 100, 0, ItemsPerPage)));
    first := s.HandleLoadMore();
    second := s.HandleLoadMore();
    s.CompleteLoad(first.value, Loaded(ProductsResponse(secondPage, 100, 20, ItemsPerPage)));
    s.CompleteLoad(second.value, Loaded(ProductsResponse(secondPage, 100, 20, ItemsPerPage)));
  }

  /** With `HandleLoadMoreOnce` the second end-of-list event fetches
      nothing and page 1 is appended once. While page 1 loads, the first
      page stays on screen in the grid, and once it has arrived the next
      event asks for page 2. */
  method LoadMoreOnceAppendsPageOnce(firstPage: seq<Product>, secondPage: seq<Product>)
    returns (s: Screen, first: Option<LoadRequest>, second: Option<LoadRequest>,
             shownWhileLoading: ScreenView, third: Option<LoadRequest>)
    requires |firstPage| == ItemsPerPage && |secondPage| == ItemsPerPage
    ensures first.Some? && first.value.page == 1 && second.None?
    ensures shownWhileLoading == ProductGrid(Sorting.SortProducts(firstPage, PriceAsc), false, false)
    ensures s.products == firstPage + secondPage
    ensures third.Some? && third.value.page == 2
  {
    s := new Screen(None);
    var initial := s.Mount();
    s.CompleteLoad(initial, Loaded(ProductsResponse(firstPage, 100, 0, ItemsPerPage)));
    first := s.HandleLoadMoreOnce();
    second := s.HandleLoadMoreOnce();
    shownWhileLoading := s.View();
    s.CompleteLoad(first.value, Loaded(ProductsResponse(secondPage, 100, 20, ItemsPerPage)));
    third := s.HandleLoadMoreOnce();
  }

  /** Whatever stable sort the JavaScript engine performs, the grid shows
      exactly its result: the products sorted by the selected option, equal
      keys in the order they were loaded. A new sort option therefore
      reorders what is shown without any load. */
  lemma GridIsTheStableSortOfProducts(s: Screen, sorted: seq<Product>)
    requires s.View().ProductGrid? && !s.sortBy.Unrecognized?
    requires Sorting.SortedBy(sorted, Sorting.OptionKey(s.sortBy), Sorting.OptionDirection(s.sortBy))
    requires Sorting.Stable(s.products, sorted, Sorting.OptionKey(s.sortBy))
    ensures s.View().items == sorted
  {
    Sorting.SortProductsIsTheStableSort(s.products, s.sortBy, sorted);
  }

  /** Counterexample for `Mount`: a screen opened for the category
      "laptops" shows it as selected but loads every category. */
  method MountIgnoresRouteCategory() returns (s: Screen, request: LoadRequest)
    ensures s.selectedCategory == Some("laptops")
    ensures request.category == None
  {
    s := new Screen(Some("laptops"));
    request := s.Mount();
  }
}
