/**
 * The catalog page (src/pages/Movies.jsx): browsing by sort order and
 * genre with page-by-page accumulation, search results that override the
 * browsed list, and the favorite/watchlist toggles that write through to
 * storage. Catalog replies are inputs; the request each fetch would send
 * is returned.
 */
module MoviesPage {
  import opened Wrappers
  import opened MovieLists
  import opened LocalStorage

  /** One list request: `/movie/<endpoint>?page=<page>[&with_genres=<genre>]`. */
  datatype ListRequest = ListRequest(endpoint: string, page: int, genre: Option<int>)

  /** The catalog's reply to a list request: `results` and `total_pages` may be missing. */
  datatype ListResponse = ListFailed | ListPage(results: Option<seq<Movie>>, totalPages: Option<int>)

  /** The catalog's reply to a title search. */
  datatype SearchResponse = SearchFailed | SearchPage(found: Option<seq<Movie>>)

  /** The page's browsing state: every field the fetch, reset and search logic touches. */
  datatype BrowseState = BrowseState(
    movies: seq<Movie>,
    page: int,
    hasMore: bool,
    searchResults: Option<seq<Movie>>,
    loading: bool,
    loadingMore: bool,
    sortOrder: string,
    activeGenre: Option<int>)

  /** The state a fresh page starts from. */
  const InitialState := BrowseState([], 1, true, None, true, false, "popularity", None)

  /** The list endpoint a sort order selects. */
  function Endpoint(sortOrder: string): (e: string)
    ensures e == "top_rated" <==> sortOrder == "top_rated"
    ensures e == "upcoming" <==> sortOrder == "upcoming"
    ensures e == "popular" <==> sortOrder != "top_rated" && sortOrder != "upcoming"
  {
    if sortOrder == "top_rated" then "top_rated"
    else if sortOrder == "upcoming" then "upcoming"
    else "popular"
  }

  /** `if (activeGenre)`: the genre filter is sent only for a present, non-zero id. */
  function GenreParam(activeGenre: Option<int>): Option<int> {
    if activeGenre.Some? && activeGenre.value != 0 then activeGenre else None
  }

  /** `res.data.total_pages || 1` */
  function TotalPages(totalPages: Option<int>): int {
    if totalPages.None? || totalPages.value == 0 then 1 else totalPages.value
  }

  /** `res.data.results || []`, and nothing at all for a failed request. */
  function PageResults(resp: ListResponse): seq<Movie> {
    if resp.ListPage? then resp.results.GetOr([]) else []
  }

  /**
   * `fetchMovies` run with the state `s` of the render that calls it: the
   * request it sends and the state once the reply has been applied.
   */
  function Fetch(s: BrowseState, resp: ListResponse): (r: (ListRequest, BrowseState))
    ensures r.0 == ListRequest(Endpoint(s.sortOrder), s.page, GenreParam(s.activeGenre))
    ensures r.1 == s.(movies := r.1.movies, hasMore := r.1.hasMore, loading := false, loadingMore := false)
    ensures resp.ListFailed? ==> r.1.movies == [] && !r.1.hasMore
    ensures resp.ListPage? && s.page == 1 ==> r.1.movies == PageResults(resp)
    ensures resp.ListPage? && s.page != 1 ==>
              |r.1.movies| == |s.movies| + |PageResults(resp)|
              && r.1.movies[..|s.movies|] == s.movies && r.1.movies[|s.movies|..] == PageResults(resp)
    ensures resp.ListPage? ==> (r.1.hasMore <==> s.page < TotalPages(resp.totalPages))
  {
    var req := ListRequest(Endpoint(s.sortOrder), s.page, GenreParam(s.activeGenre));
    match resp
    case ListFailed =>
      (req, s.(movies := [], hasMore := false, loading := false, loadingMore := false))
    case ListPage(results, total) =>
      var movies := if s.page == 1 then results.GetOr([]) else s.movies + results.GetOr([]);
      (req, s.(movies := movies, hasMore := s.page < TotalPages(total),
               loading := false, loadingMore := false))
  }

  /**
   * The effect that runs when the sort order or the genre changed: page 1,
   * an empty list, then a fetch of the first page of the new listing.
   */
  function Reset(s: BrowseState, resp: ListResponse): (r: (ListRequest, BrowseState))
    ensures r.0.page == 1 && r.1.page == 1
    ensures r.0.endpoint == Endpoint(s.sortOrder) && r.0.genre == GenreParam(s.activeGenre)
    ensures r.1.movies == PageResults(resp)
    ensures r.1.hasMore == (resp.ListPage? && 1 < TotalPages(resp.totalPages))
    ensures r.1 == s.(page := 1, movies := r.1.movies, hasMore := r.1.hasMore, loading := false, loadingMore := false)
  {
    Fetch(s.(page := 1, movies := [], loading := true), resp)
  }

  /**
   * The same effect as the source writes it: `fetchMovies` is the closure of
   * the render in which the filter changed, so it still holds that render's
   * page number, while the page state becomes 1.
   */
  function ResetAsWritten(s: BrowseState, resp: ListResponse): (r: (ListRequest, BrowseState))
    ensures r.0.page == s.page && r.1.page == 1
    ensures resp.ListPage? ==> r.1.movies == PageResults(resp) && (r.1.hasMore <==> s.page < TotalPages(resp.totalPages))
    ensures resp.ListFailed? ==> r.1.movies == [] && !r.1.hasMore
    ensures r.1 == s.(page := 1, movies := r.1.movies, hasMore := r.1.hasMore, loading := false, loadingMore := false)
  {
    var (req, after) := Fetch(s.(movies := [], loading := true), resp);
    (req, after.(page := 1))
  }

  /** "Load more" followed by the effect on the new page number. */
  function LoadMore(s: BrowseState, resp: ListResponse): (r: (ListRequest, BrowseState))
    requires s.page >= 1
    ensures r.1.page == s.page + 1 && r.0.page == s.page + 1
    ensures resp.ListPage? ==> r.1.movies == s.movies + PageResults(resp)
    ensures resp.ListPage? ==> (r.1.hasMore <==> s.page + 1 < TotalPages(resp.totalPages))
    ensures resp.ListFailed? ==> r.1.movies == [] && !r.1.hasMore
    ensures r.1 == s.(page := s.page + 1, movies := r.1.movies, hasMore := r.1.hasMore, loading := false, loadingMore := false)
  {
    Fetch(s.(page := s.page + 1, loadingMore := true), resp)
  }

  /** `handleSearch(query)`: an empty query drops the results, any other query replaces them. */
  function Search(s: BrowseState, query: string, resp: SearchResponse): (r: BrowseState)
    ensures r == s.(searchResults := r.searchResults, loading := false)
    ensures query == "" <==> r.searchResults.None?
    ensures query != "" && resp.SearchPage? ==> r.searchResults == Some(resp.found.GetOr([]))
    ensures query != "" && resp.SearchFailed? ==> r.searchResults == Some([])
  {
    if query == "" then s.(searchResults := None, loading := false)
    else
      match resp
      case SearchFailed => s.(searchResults := Some([]), loading := false)
      case SearchPage(found) => s.(searchResults := Some(found.GetOr([])), loading := false)
  }

  /** `searchResults || movies`: results, even an empty list of them, hide the browsed list. */
  function Displayed(s: BrowseState): (r: seq<Movie>)
    ensures s.searchResults.Some? ==> r == s.searchResults.value
    ensures s.searchResults.None? ==> r == s.movies
  {
    if s.searchResults.Some? then s.searchResults.value else s.movies
  }

  /** `handleGenreFilter(id)`: the active genre clicked again clears the filter. */
  function GenreClicked(active: Option<int>, id: int): (r: Option<int>)
    ensures active == Some(id) ==> r == None
    ensures active != Some(id) ==> r == Some(id)
    ensures r != active
  {
    if active == Some(id) then None else Some(id)
  }

  /** `isInFavorites` / `isInWatchlist`: a falsy id is never a member. */
  function IsMember(list: seq<Movie>, id: int): (b: bool)
    ensures b <==> id != 0 && exists i :: 0 <= i < |list| && list[i].id == id
  {
    id != 0 && HasId(list, id)
  }

  /** The results of a run of successful pages, in the order they were fetched. */
  function Joined(resps: seq<ListResponse>): seq<Movie> {
    if resps == [] then [] else Joined(resps[..|resps| - 1]) + PageResults(resps[|resps| - 1])
  }

  /** Every reply in `resps` is a page, none a failure. */
  predicate AllPages(resps: seq<ListResponse>) {
    resps == [] || (AllPages(resps[..|resps| - 1]) && resps[|resps| - 1].ListPage?)
  }

  /** The state after the reset fetch `first` and one "load more" per reply in `more`. */
  function Browse(s: BrowseState, first: ListResponse, more: seq<ListResponse>): (r: BrowseState)
    ensures r.page == |more| + 1
  {
    if more == [] then Reset(s, first).1
    else LoadMore(Browse(s, first, more[..|more| - 1]), more[|more| - 1]).1
  }

  /**
   * Pages accumulate: after a reset and any number of successful "load
   * more" fetches, the list is every page's results in page order.
   */
  lemma {:induction false} PagesAccumulate(s: BrowseState, first: ListResponse, more: seq<ListResponse>)
    requires first.ListPage?
    requires AllPages(more)
    ensures Browse(s, first, more).movies == PageResults(first) + Joined(more)
  {
    if more != [] {
      var init, last := more[..|more| - 1], more[|more| - 1];
      PagesAccumulate(s, first, init);
      var prev := Browse(s, first, init);
      assert Browse(s, first, more).movies == prev.movies + PageResults(last);
      assert Joined(more) == Joined(init) + PageResults(last);
    }
  }

  /**
   * After the reset and `|more|` further fetches, `hasMore` holds exactly
   * when the last reply succeeded and the current page is below its page
   * count (1 when missing); a failed last fetch also empties the list.
   */
  lemma BrowseHasMore(s: BrowseState, first: ListResponse, more: seq<ListResponse>)
    ensures var last := if more == [] then first else more[|more| - 1];
            var r := Browse(s, first, more);
            && (r.hasMore <==> last.ListPage? && |more| + 1 < TotalPages(last.totalPages))
            && (last.ListFailed? ==> r.movies == [])
  {
    if more != [] {
      var prev := Browse(s, first, more[..|more| - 1]);
      assert prev.page == |more|;
    }
  }

  /** A search, or clearing it, never touches the browsed list, page or `hasMore`. */
  lemma SearchLeavesBrowsing(s: BrowseState, query: string, resp: SearchResponse)
    ensures var r := Search(s, query, resp);
            r.movies == s.movies && r.page == s.page && r.hasMore == s.hasMore
    ensures query != "" ==> Displayed(Search(s, query, resp)) == Search(s, query, resp).searchResults.value
    ensures query == "" ==> Displayed(Search(s, query, resp)) == s.movies
  {
  }

  /** Searching and then clearing the search returns exactly to the browsed list and page. */
  lemma SearchThenClearRestores(s: BrowseState, query: string, resp: SearchResponse, again: SearchResponse)
    requires s.searchResults.None?
    ensures var r := Search(Search(s, query, resp), "", again);
            r == s.(loading := false) && Displayed(r) == Displayed(s)
  {
  }

  /** The reset as written sends the old page number: on page 3 it fetches page 3 of the new listing. */
  lemma StaleResetFetchesOldPage(s: BrowseState, m: Movie)
    requires s.page == 3
    ensures var (req, after) := ResetAsWritten(s, ListPage(Some([m]), Some(10)));
            req.page == 3 && after.page == 1 && after.movies == [m] && after.hasMore
    ensures var (req, after) := ResetAsWritten(s, ListPage(Some([m]), Some(10)));
            LoadMore(after, ListPage(Some([]), Some(10))).0.page == 2
  {
  }

  /** Corrected and as-written resets agree exactly when the render was already on page 1. */
  lemma ResetAgreesOnFirstPage(s: BrowseState, resp: ListResponse)
    requires s.page == 1
    ensures ResetAsWritten(s, resp) == Reset(s, resp)
  {
  }

  /** The catalog page component. */
  class CatalogPage {
    const storage: Store
    var movies: seq<Movie>
    var page: int
    var hasMore: bool
    var searchResults: Option<seq<Movie>>
    var loading: bool
    var loadingMore: bool
    var favorites: seq<Movie>
    var watchlist: seq<Movie>
    var sortOrder: string
    var activeGenre: Option<int>

    /** Pages are numbered from 1. */
    ghost predicate Valid()
      reads this
    {
      page >= 1
    }

    /** The browsing fields as one value. */
    function State(): BrowseState
      reads this
    {
      BrowseState(movies, page, hasMore, searchResults, loading, loadingMore, sortOrder, activeGenre)
    }

    method SetState(s: BrowseState)
      modifies this
      ensures State() == s
      ensures favorites == old(favorites) && watchlist == old(watchlist)
    {
      movies, page, hasMore, searchResults := s.movies, s.page, s.hasMore, s.searchResults;
      loading, loadingMore, sortOrder, activeGenre := s.loading, s.loadingMore, s.sortOrder, s.activeGenre;
    }

    /**
     * The initial state and the mount effect that loads both collections:
     * if either stored list fails to parse, both start empty.
     */
    constructor (storage: Store)
      ensures this.storage == storage && Valid() && State() == InitialState
      ensures var f, w := ParseMovies(storage.Get(FavoritesKey)), ParseMovies(storage.Get(WatchlistKey));
              if f.Parsed? && w.Parsed? then favorites == f.value && watchlist == w.value
              else favorites == [] && watchlist == []
    {
      this.storage := storage;
      movies, page, hasMore, searchResults := [], 1, true, None;
      loading, loadingMore, sortOrder, activeGenre := true, false, "popularity", None;
      var f := ParseMovies(storage.Get(FavoritesKey));
      var w := ParseMovies(storage.Get(WatchlistKey));
      if f.Parsed? && w.Parsed? {
        favorites, watchlist := f.value, w.value;
      } else {
        favorites, watchlist := [], [];
      }
    }

    /** A sort-menu choice; the reset effect runs only if the order actually changed. */
    method ChangeSortOrder(order: string, resp: ListResponse) returns (req: Option<ListRequest>)
      requires Valid()
      modifies this
      ensures Valid() && favorites == old(favorites) && watchlist == old(watchlist)
      ensures order == old(sortOrder) ==> req == None && State() == old(State())
      ensures order != old(sortOrder) ==>
                var (r, after) := Reset(old(State()).(sortOrder := order), resp);
                req == Some(r) && State() == after
    {
      if order == sortOrder {
        req := None;
      } else {
        var (r, after) := Reset(State().(sortOrder := order), resp);
        SetState(after);
        req := Some(r);
      }
    }

    /** A genre-chip click; the active genre always changes, so the reset effect always runs. */
    method FilterByGenre(genreId: int, resp: ListResponse) returns (req: ListRequest)
      requires Valid()
      modifies this
      ensures Valid() && favorites == old(favorites) && watchlist == old(watchlist)
      ensures activeGenre == GenreClicked(old(activeGenre), genreId)
      ensures (req, State()) == Reset(old(State()).(activeGenre := activeGenre), resp)
    {
      var (r, after) := Reset(State().(activeGenre := GenreClicked(activeGenre, genreId)), resp);
      SetState(after);
      req := r;
    }

    /** `handleSearch(query)` with the search reply as input. */
    method HandleSearch(query: string, resp: SearchResponse)
      modifies this
      ensures State() == Search(old(State()), query, resp)
      ensures favorites == old(favorites) && watchlist == old(watchlist)
    {
      SetState(Search(State(), query, resp));
    }

    /** The delete button on the search-results chip. */
    method DismissSearch()
      modifies this
      ensures State() == old(State()).(searchResults := None)
      ensures favorites == old(favorites) && watchlist == old(watchlist)
    {
      searchResults := None;
    }

    /** The "Load More" button is shown while browsing with more pages, and enabled while idle. */
    function CanLoadMore(): (b: bool)
      reads this
      ensures b <==> searchResults.None? && hasMore && !loadingMore
      ensures b ==> Displayed(State()) == movies
    {
      searchResults.None? && hasMore && !loadingMore
    }

    /**
     * The reset effect's first run, on mount. The first render is on page 1,
     * so the effect as written and as intended request the same page.
     */
    method Mount(resp: ListResponse) returns (req: ListRequest)
      requires page == 1
      modifies this
      ensures Valid() && favorites == old(favorites) && watchlist == old(watchlist)
      ensures (req, State()) == Reset(old(State()), resp)
      ensures (req, State()) == ResetAsWritten(old(State()), resp)
      ensures req.page == 1 && page == 1 && movies == PageResults(resp)
    {
      ResetAgreesOnFirstPage(State(), resp);
      var (r, after) := Reset(State(), resp);
      SetState(after);
      req := r;
    }

    /** "Load more" and the page effect it triggers: one more page, appended. */
    method HandleSeeMore(resp: ListResponse) returns (req: ListRequest)
      requires Valid() && CanLoadMore()
      modifies this
      ensures Valid() && favorites == old(favorites) && watchlist == old(watchlist)
      ensures page == old(page) + 1 && req.page == page
      ensures (req, State()) == LoadMore(old(State()), resp)
    {
      var (r, after) := LoadMore(State(), resp);
      SetState(after);
      req := r;
    }

    /**
     * The toggle both handlers share: re-read the stored list, toggle the
     * movie in it and write it back. A stored list that fails to parse
     * changes nothing.
     */
    method ToggleStored(key: string, movie: Movie) returns (updated: Parsed<seq<Movie>>)
      modifies storage
      ensures var stored := ParseMovies(old(storage.Get(key)));
              updated == if stored.Parsed? then Parsed(Toggled(stored.value, movie)) else ParseError
      ensures updated.Parsed? ==> storage.items == old(storage.items)[key := MovieList(updated.value)]
      ensures updated.ParseError? ==> storage.items == old(storage.items)
    {
      var stored := ParseMovies(storage.Get(key));
      if stored.Parsed? {
        updated := Parsed(Toggled(stored.value, movie));
        storage.Set(key, MovieList(updated.value));
      } else {
        updated := ParseError;
      }
    }

    /** `handleFavorite(movie)`: the stored favorites toggled and mirrored into state. */
    method HandleFavorite(movie: Option<Movie>)
      modifies this, storage
      ensures State() == old(State()) && watchlist == old(watchlist)
      ensures var stored := ParseMovies(old(storage.Get(FavoritesKey)));
              if movie.Some? && stored.Parsed? then
                favorites == Toggled(stored.value, movie.value)
                && storage.items == old(storage.items)[FavoritesKey := MovieList(favorites)]
              else
                favorites == old(favorites) && storage.items == old(storage.items)
    {
      if movie.Some? {
        var updated := ToggleStored(FavoritesKey, movie.value);
        if updated.Parsed? {
          favorites := updated.value;
        }
      }
    }

    /** `handleWatchlist(movie)`: the same toggle on the watchlist. */
    method HandleWatchlist(movie: Option<Movie>)
      modifies this, storage
      ensures State() == old(State()) && favorites == old(favorites)
      ensures var stored := ParseMovies(old(storage.Get(WatchlistKey)));
              if movie.Some? && stored.Parsed? then
                watchlist == Toggled(stored.value, movie.value)
                && storage.items == old(storage.items)[WatchlistKey := MovieList(watchlist)]
              else
                watchlist == old(watchlist) && storage.items == old(storage.items)
    {
      if movie.Some? {
        var updated := ToggleStored(WatchlistKey, movie.value);
        if updated.Parsed? {
          watchlist := updated.value;
        }
      }
    }

    function IsInFavorites(id: int): (b: bool)
      reads this
      ensures b <==> id != 0 && HasId(favorites, id)
    {
      IsMember(favorites, id)
    }

    function IsInWatchlist(id: int): (b: bool)
      reads this
      ensures b <==> id != 0 && HasId(watchlist, id)
    {
      IsMember(watchlist, id)
    }
  }
}
