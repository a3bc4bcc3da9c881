/** `Products.tsx`: the catalogue page. Its filter state picks which product query to fetch;
    its handlers reset that state; a list of page links is built in a loop. A fetch is recorded
    as the query it sends: the one `fetchProducts` issues from the handler that calls it (with
    the state that handler saw), and the one the effect on
    `[currentPage, selectedCategory, sortBy, sortDir]` issues after a change to those fields. */
module Products {
  import opened Results
  import opened ClientTypes

  const PAGE_SIZE := 12
  const MAX_VISIBLE_PAGES := 5
  const EXCERPT_LENGTH := 80

  /** The API call a fetch makes; the price bounds are passed through `parseFloat`, which is not
      modelled, so they stay text. */
  datatype Query =
    | Search(term: string, page: int, size: int)
    | ByCategory(categoryId: int, page: int, size: int)
    | ByPriceRange(minPrice: string, maxPrice: string, page: int, size: int)
    | AllProducts(page: int, size: int, sortBy: string, sortDir: string)

  /** The state fields that decide the query. */
  datatype Filters = Filters(
    currentPage: int, searchTerm: string, selectedCategory: Option<int>, sortBy: string, sortDir: string,
    minPrice: string, maxPrice: string)

  /** A selected category counts only when it is a non-zero number (0 is falsy). */
  predicate CategoryChosen(c: Option<int>) {
    c.Some? && c.value != 0
  }

  /** `fetchProducts`' dispatch: a search term first, then a category, then both price bounds,
      else all products in the chosen order; always the current page, 12 per page. */
  function FetchQuery(f: Filters): (q: Query)
    ensures q.page == f.currentPage && q.size == PAGE_SIZE
    ensures q.Search? <==> f.searchTerm != ""
    ensures q.ByCategory? <==> f.searchTerm == "" && CategoryChosen(f.selectedCategory)
    ensures q.ByPriceRange? <==>
      f.searchTerm == "" && !CategoryChosen(f.selectedCategory) && f.minPrice != "" && f.maxPrice != ""
    ensures q.Search? ==> q.term == f.searchTerm
    ensures q.ByCategory? ==> Some(q.categoryId) == f.selectedCategory
    ensures q.ByPriceRange? ==> q.minPrice == f.minPrice && q.maxPrice == f.maxPrice
    ensures q.AllProducts? ==> q.sortBy == f.sortBy && q.sortDir == f.sortDir
  {
    if f.searchTerm != "" then Search(f.searchTerm, f.currentPage, PAGE_SIZE)
    else if CategoryChosen(f.selectedCategory) then ByCategory(f.selectedCategory.value, f.currentPage, PAGE_SIZE)
    else if f.minPrice != "" && f.maxPrice != "" then ByPriceRange(f.minPrice, f.maxPrice, f.currentPage, PAGE_SIZE)
    else AllProducts(f.currentPage, PAGE_SIZE, f.sortBy, f.sortDir)
  }

  /** The effect's dependencies changed between two states. */
  predicate DepsChanged(before: Filters, after: Filters) {
    before.currentPage != after.currentPage || before.selectedCategory != after.selectedCategory
    || before.sortBy != after.sortBy || before.sortDir != after.sortDir
  }

  /** The queries a handler leads to: its own `fetchProducts` call, if any, with the state it
      saw, then the effect's, if the dependencies changed. */
  function Fetches(before: Filters, after: Filters, calls: bool): seq<Query> {
    (if calls then [FetchQuery(before)] else []) + (if DepsChanged(before, after) then [FetchQuery(after)] else [])
  }

  /** The defaults, which `clearFilters` restores. */
  const DEFAULT_FILTERS := Filters(0, "", None, "id", "asc", "", "")

  /** `handleCategoryFilter`: that category, page 0, no search text, no price bounds. */
  function CategoryFiltered(f: Filters, categoryId: Option<int>): Filters {
    f.(selectedCategory := categoryId, currentPage := 0, searchTerm := "", minPrice := "", maxPrice := "")
  }

  /** `handlePriceFilter`: only with both bounds; then page 0, no category, no search text. */
  function PriceFiltered(f: Filters): Filters {
    if f.minPrice != "" && f.maxPrice != "" then f.(currentPage := 0, selectedCategory := None, searchTerm := "")
    else f
  }

  /** `handleSort`: the new order, from page 0. */
  function Sorted(f: Filters, sortBy: string, sortDir: string): Filters {
    f.(sortBy := sortBy, sortDir := sortDir, currentPage := 0)
  }

  /** Choosing a category clears the other filters and returns to page 0; the page then shows
      that category's first page, or all products in the current order when the choice is
      "All Categories" or the id 0. */
  lemma CategoryFilterFetches(f: Filters, categoryId: Option<int>)
    ensures var g := CategoryFiltered(f, categoryId);
      && g.selectedCategory == categoryId && g.currentPage == 0
      && g.searchTerm == "" && g.minPrice == "" && g.maxPrice == ""
      && g.sortBy == f.sortBy && g.sortDir == f.sortDir
      && (CategoryChosen(categoryId) ==> FetchQuery(g) == ByCategory(categoryId.value, 0, PAGE_SIZE))
      && (!CategoryChosen(categoryId) ==> FetchQuery(g) == AllProducts(0, PAGE_SIZE, f.sortBy, f.sortDir))
  {
  }

  /** The price filter's two fetches: its own call still sees the state before the handler ran,
      and the effect follows only when the page or the category changed. So with search text
      typed, on page 0 and without a category, the one query sent is that search, although the
      search box is cleared. */
  lemma PriceFilterFetches(f: Filters)
    ensures f.minPrice == "" || f.maxPrice == "" ==> PriceFiltered(f) == f
    ensures f.minPrice != "" && f.maxPrice != "" ==>
      var g := PriceFiltered(f);
      && g == f.(currentPage := 0, selectedCategory := None, searchTerm := "")
      && FetchQuery(g) == ByPriceRange(f.minPrice, f.maxPrice, 0, PAGE_SIZE)
      && Fetches(f, g, true)[0] == FetchQuery(f)
      && (f.searchTerm != "" && f.currentPage == 0 && f.selectedCategory.None? ==>
            Fetches(f, g, true) == [Search(f.searchTerm, 0, PAGE_SIZE)])
  {
  }

  /** Sorting keeps the other filters and returns to page 0; with no search, category or price
      range it lists all products in that order. The defaults list all products by id, ascending. */
  lemma SortAndClear(f: Filters, sortBy: string, sortDir: string)
    ensures Sorted(f, sortBy, sortDir) == f.(sortBy := sortBy, sortDir := sortDir, currentPage := 0)
    ensures f.searchTerm == "" && !CategoryChosen(f.selectedCategory) && (f.minPrice == "" || f.maxPrice == "") ==>
      FetchQuery(Sorted(f, sortBy, sortDir)) == AllProducts(0, PAGE_SIZE, sortBy, sortDir)
    ensures FetchQuery(DEFAULT_FILTERS) == AllProducts(0, PAGE_SIZE, "id", "asc")
  {
  }

  /** A card's description: the first 80 characters and "..." when it is longer, else all of it. */
  function Excerpt(description: string): (s: string)
    ensures |s| <= EXCERPT_LENGTH + 3
    ensures |description| <= EXCERPT_LENGTH ==> s == description
    ensures |description| > EXCERPT_LENGTH ==>
      |s| == EXCERPT_LENGTH + 3 && s[..EXCERPT_LENGTH] == description[..EXCERPT_LENGTH] && s[EXCERPT_LENGTH..] == "..."
  {
    if |description| > EXCERPT_LENGTH then description[..EXCERPT_LENGTH] + "..." else description
  }

  /** A link of the pagination bar; `PageNumber` is labelled `page + 1`. */
  datatype PageItem =
    | First(target: int)
    | Prev(target: int)
    | PageNumber(page: int, active: bool)
    | Next(target: int)
    | Last(target: int)

  /** The first numbered page: two before the current one, but not below 0. */
  function WindowStart(currentPage: int): int {
    var s := currentPage - MAX_VISIBLE_PAGES / 2;
    if s < 0 then 0 else s
  }

  /** The last numbered page: four after the first, but not past the last page. */
  function WindowEnd(currentPage: int, totalPages: int): int {
    var e := WindowStart(currentPage) + MAX_VISIBLE_PAGES - 1;
    if totalPages - 1 < e then totalPages - 1 else e
  }

  /** The numbered links `start`, `start + 1`, ... (`count` of them); the current one is active. */
  function PageNumbers(start: int, count: nat, currentPage: int): (r: seq<PageItem>)
    ensures |r| == count
    ensures forall i :: 0 <= i < count ==> r[i] == PageNumber(start + i, start + i == currentPage)
  {
    if count == 0 then [] else PageNumbers(start, count - 1, currentPage) + [PageNumber(start + count - 1, start + count - 1 == currentPage)]
  }

  /** How many numbered links the window holds. */
  function WindowSize(currentPage: int, totalPages: int): nat {
    var s := WindowStart(currentPage);
    var e := WindowEnd(currentPage, totalPages);
    if e < s then 0 else e - s + 1
  }

  /** The bar: First and Prev when not on the first page, the window of numbers, Next and Last
      when not on the last page. */
  function PaginationItems(currentPage: int, totalPages: int): seq<PageItem> {
    (if currentPage > 0 then [First(0), Prev(currentPage - 1)] else [])
    + PageNumbers(WindowStart(currentPage), WindowSize(currentPage, totalPages), currentPage)
    + (if currentPage < totalPages - 1 then [Next(currentPage + 1), Last(totalPages - 1)] else [])
  }

  /** At most five numbered links, each a page that exists; on a page that exists, that page is
      among them. */
  lemma WindowFacts(currentPage: int, totalPages: int)
    ensures WindowSize(currentPage, totalPages) <= MAX_VISIBLE_PAGES
    ensures WindowStart(currentPage) >= 0 && WindowEnd(currentPage, totalPages) <= totalPages - 1
    ensures 0 <= currentPage < totalPages ==>
      WindowStart(currentPage) <= currentPage <= WindowEnd(currentPage, totalPages)
  {
  }

  /** Exactly one numbered link is active when the current page exists, and it is the current page. */
  lemma OneActive(currentPage: int, totalPages: int)
    requires 0 <= currentPage < totalPages
    ensures var items := PaginationItems(currentPage, totalPages);
      exists k :: 0 <= k < |items| && items[k] == PageNumber(currentPage, true)
        && forall j :: 0 <= j < |items| && j != k ==> !(items[j].PageNumber? && items[j].active)
  {
    var items := PaginationItems(currentPage, totalPages);
    var head := if currentPage > 0 then [First(0), Prev(currentPage - 1)] else [];
    var start := WindowStart(currentPage);
    var numbers := PageNumbers(start, WindowSize(currentPage, totalPages), currentPage);
    var tail := if currentPage < totalPages - 1 then [Next(currentPage + 1), Last(totalPages - 1)] else [];
    assert items == head + numbers + tail;
    WindowFacts(currentPage, totalPages);
    var k := |head| + (currentPage - start);
    assert items[k] == numbers[currentPage - start];
    forall j | 0 <= j < |items| && j != k ensures !(items[j].PageNumber? && items[j].active) {
      if |head| <= j < |head| + |numbers| {
        assert items[j] == numbers[j - |head|];
      } else if j < |head| {
        assert items[j] == head[j];
      } else {
        assert items[j] == tail[j - |head| - |numbers|];
      }
    }
  }

  /** First and Prev appear exactly when there is an earlier page, Next and Last exactly when
      there is a later one. */
  lemma ArrowLinks(currentPage: int, totalPages: int)
    ensures var items := PaginationItems(currentPage, totalPages);
      && (First(0) in items <==> currentPage > 0)
      && (Prev(currentPage - 1) in items <==> currentPage > 0)
      && (Next(currentPage + 1) in items <==> currentPage < totalPages - 1)
      && (Last(totalPages - 1) in items <==> currentPage < totalPages - 1)
  {
    var head := if currentPage > 0 then [First(0), Prev(currentPage - 1)] else [];
    var numbers := PageNumbers(WindowStart(currentPage), WindowSize(currentPage, totalPages), currentPage);
    var tail := if currentPage < totalPages - 1 then [Next(currentPage + 1), Last(totalPages - 1)] else [];
    var items := PaginationItems(currentPage, totalPages);
    assert items == head + numbers + tail;
    assert forall x :: x in numbers ==> x.PageNumber?;
  }

  /** A page of results. */
  datatype ProductPage = ProductPage(content: seq<ClientProduct>, totalPages: int)

  /** The page's state; `fetches` lists the queries sent, in order. */
  class ProductsPage {
    var products: seq<ClientProduct>
    var loading: bool
    var currentPage: int
    var totalPages: int
    var searchTerm: string
    var selectedCategory: Option<int>
    var sortBy: string
    var sortDir: string
    var minPrice: string
    var maxPrice: string
    var fetches: seq<Query>

    /** Mounting: the defaults, and the effect's first fetch. */
    constructor ()
      ensures State() == DEFAULT_FILTERS && fetches == [FetchQuery(DEFAULT_FILTERS)]
      ensures products == [] && loading && totalPages == 0
    {
      products, loading, totalPages := [], true, 0;
      currentPage, searchTerm, selectedCategory := 0, "", None;
      sortBy, sortDir, minPrice, maxPrice := "id", "asc", "", "";
      fetches := [AllProducts(0, PAGE_SIZE, "id", "asc")];
    }

    /** The filter fields as a value. */
    function State(): Filters
      reads this
    {
      Filters(currentPage, searchTerm, selectedCategory, sortBy, sortDir, minPrice, maxPrice)
    }

    /** `fetchProducts` as far as the page's state goes: loading starts and the query is recorded. */
    method Fetch(query: Query)
      modifies this
      ensures fetches == old(fetches) + [query] && loading
      ensures State() == old(State()) && products == old(products) && totalPages == old(totalPages)
    {
      loading := true;
      fetches := fetches + [query];
    }

    /** Runs the effect's fetch when one of its dependencies differs from `before`. */
    method RunEffect(before: Filters)
      modifies this
      ensures fetches == old(fetches) + (if DepsChanged(before, State()) then [FetchQuery(State())] else [])
      ensures loading == (old(loading) || DepsChanged(before, State()))
      ensures State() == old(State()) && products == old(products) && totalPages == old(totalPages)
    {
      if DepsChanged(before, State()) {
        Fetch(FetchQuery(State()));
      }
    }

    /** `handleSearch`: page 0, and a fetch with the state as it was. */
    method HandleSearch()
      modifies this
      ensures State() == old(State()).(currentPage := 0)
      ensures fetches == old(fetches) + Fetches(old(State()), State(), true)
      ensures loading == (old(loading) || |fetches| > |old(fetches)|)
      ensures products == old(products) && totalPages == old(totalPages)
    {
      var before := State();
      currentPage := 0;
      Fetch(FetchQuery(before));
      RunEffect(before);
    }

    /** `handleCategoryFilter`. */
    method HandleCategoryFilter(categoryId: Option<int>)
      modifies this
      ensures State() == CategoryFiltered(old(State()), categoryId)
      ensures fetches == old(fetches) + Fetches(old(State()), State(), false)
      ensures loading == (old(loading) || |fetches| > |old(fetches)|)
      ensures products == old(products) && totalPages == old(totalPages)
    {
      var before := State();
      selectedCategory := categoryId;
      currentPage := 0;
      searchTerm := "";
      minPrice := "";
      maxPrice := "";
      RunEffect(before);
    }

    /** `handlePriceFilter`: nothing unless both bounds are filled in. */
    method HandlePriceFilter()
      modifies this
      ensures State() == PriceFiltered(old(State()))
      ensures fetches == old(fetches) + Fetches(old(State()), State(), minPrice != "" && maxPrice != "")
      ensures loading == (old(loading) || |fetches| > |old(fetches)|)
      ensures products == old(products) && totalPages == old(totalPages)
    {
      var before := State();
      if minPrice != "" && maxPrice != "" {
        currentPage := 0;
        selectedCategory := None;
        searchTerm := "";
        Fetch(FetchQuery(before));
        RunEffect(before);
      }
    }

    /** `handleSort`. */
    method HandleSort(newSortBy: string, newSortDir: string)
      modifies this
      ensures State() == Sorted(old(State()), newSortBy, newSortDir)
      ensures fetches == old(fetches) + Fetches(old(State()), State(), false)
      ensures loading == (old(loading) || |fetches| > |old(fetches)|)
      ensures products == old(products) && totalPages == old(totalPages)
    {
      var before := State();
      sortBy := newSortBy;
      sortDir := newSortDir;
      currentPage := 0;
      RunEffect(before);
    }

    /** `clearFilters`: back to the defaults. */
    method ClearFilters()
      modifies this
      ensures State() == DEFAULT_FILTERS
      ensures fetches == old(fetches) + Fetches(old(State()), State(), false)
      ensures loading == (old(loading) || |fetches| > |old(fetches)|)
      ensures products == old(products) && totalPages == old(totalPages)
    {
      var before := State();
      searchTerm := "";
      selectedCategory := None;
      minPrice := "";
      maxPrice := "";
      currentPage := 0;
      sortBy := "id";
      sortDir := "asc";
      RunEffect(before);
    }

    /** A pagination link's `setCurrentPage(target)`. */
    method GoToPage(target: int)
      modifies this
      ensures State() == old(State()).(currentPage := target)
      ensures fetches == old(fetches) + Fetches(old(State()), State(), false)
      ensures loading == (old(loading) || |fetches| > |old(fetches)|)
      ensures products == old(products) && totalPages == old(totalPages)
    {
      var before := State();
      currentPage := target;
      RunEffect(before);
    }

    /** The text boxes: search text and price bounds; none of them is a dependency of the effect. */
    method SetSearchTerm(text: string)
      modifies this
      ensures State() == old(State()).(searchTerm := text) && fetches == old(fetches)
      ensures products == old(products) && totalPages == old(totalPages) && loading == old(loading)
    {
      searchTerm := text;
    }

    method SetMinPrice(text: string)
      modifies this
      ensures State() == old(State()).(minPrice := text) && fetches == old(fetches)
      ensures products == old(products) && totalPages == old(totalPages) && loading == old(loading)
    {
      minPrice := text;
    }

    method SetMaxPrice(text: string)
      modifies this
      ensures State() == old(State()).(maxPrice := text) && fetches == old(fetches)
      ensures products == old(products) && totalPages == old(totalPages) && loading == old(loading)
    {
      maxPrice := text;
    }

    /** The end of a fetch: a page of results replaces the products and the page count; a
        failure keeps both. Loading stops either way. */
    method FetchDone(response: ApiResult<ProductPage>)
      modifies this
      ensures response.Ok? ==> products == response.value.content && totalPages == response.value.totalPages
      ensures response.Err? ==> products == old(products) && totalPages == old(totalPages)
      ensures !loading && State() == old(State()) && fetches == old(fetches)
    {
      if response.Ok? {
        products := response.value.content;
        totalPages := response.value.totalPages;
      }
      loading := false;
    }

    /** Whether the pagination bar is rendered. */
    predicate ShowsPagination()
      reads this
    {
      totalPages > 1
    }

    /** `renderPagination`: pushes the arrows and the window of numbered links in order. */
    method RenderPagination() returns (items: seq<PageItem>)
      ensures items == PaginationItems(currentPage, totalPages)
    {
      var current, total := currentPage, totalPages;
      items := [];
      var startPage := WindowStart(current);
      var endPage := WindowEnd(current, total);
      if current > 0 {
        items := items + [First(0)];
        items := items + [Prev(current - 1)];
      }
      ghost var head := items;
      assert head == if current > 0 then [First(0), Prev(current - 1)] else [];
      ghost var count := WindowSize(current, total);
      var numbers := [];
      var page := startPage;
      while page <= endPage
        invariant startPage <= page <= startPage + count
        invariant numbers == PageNumbers(startPage, page - startPage, current)
        decreases endPage - page
      {
        numbers := numbers + [PageNumber(page, page == current)];
        page := page + 1;
      }
      assert numbers == PageNumbers(WindowStart(current), count, current);
      var tail := [];
      if current < total - 1 {
        tail := tail + [Next(current + 1)];
        tail := tail + [Last(total - 1)];
      }
      assert tail == if current < total - 1 then [Next(current + 1), Last(total - 1)] else [];
      items := items + numbers + tail;
    }
  }

  /** The bar is hidden only when it would be a lone active link: on a page that exists, a hidden
      bar would hold just page 0, and a shown bar holds at least two numbered links and an arrow pair. */
  lemma PaginationShownWhenUseful(page: ProductsPage)
    ensures var items := PaginationItems(page.currentPage, page.totalPages);
      0 <= page.currentPage < page.totalPages ==>
        && (!page.ShowsPagination() ==> items == [PageNumber(0, true)])
        && (page.ShowsPagination() ==> |items| >= 4)
  {
    var cur, total := page.currentPage, page.totalPages;
    if 0 <= cur < total {
      WindowFacts(cur, total);
      var n := WindowSize(cur, total);
      if total > 1 {
        assert n >= 2 || (cur > 0 && cur < total - 1);
      }
    }
  }
}
