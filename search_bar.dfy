/**
 * The search bar component (src/components/SearchBar.jsx): the typed
 * query, the debounced suggestion fetch, the recent-search history kept in
 * storage, the trending list, and when the suggestion panel is shown.
 * Catalog replies are inputs; each handler returns the query it hands to
 * the page's `onSearch`, if any.
 */
module SearchBar {
  import opened Wrappers
  import opened JsText
  import opened MovieLists
  import opened LocalStorage
  import opened SearchHistory

  /** How many live matches and trending movies the panel lists. */
  const ListLimit := 5

  /** A catalog reply the bar slices: a failed request, or its `results`. */
  datatype ResultsResponse = ResultsFailed | Results(results: seq<Movie>)

  /** Every field of the component's state. */
  datatype BarState = BarState(
    query: string,
    focused: bool,
    loading: bool,
    suggestions: seq<Movie>,
    history: seq<string>,
    trending: seq<Movie>,
    showResults: bool,
    pendingFetch: Option<string>)  // the query an armed debounce timer will fetch

  /** `shouldShowSuggestions`: focused, with something to list. */
  function ShouldShowSuggestions(s: BarState): (b: bool)
    ensures b <==> s.focused && (s.suggestions != [] || s.history != [] || s.trending != [])
  {
    s.focused && (|s.suggestions| > 0 || |s.history| > 0 || |s.trending| > 0)
  }

  /** The panel is rendered when `shouldShowSuggestions && showResults`. */
  function PanelOpen(s: BarState): bool {
    ShouldShowSuggestions(s) && s.showResults
  }

  /** The trending section appears only while the query is empty. */
  function ShowsTrending(s: BarState): bool {
    |s.trending| > 0 && s.query == ""
  }

  /** A panel never opens unfocused, and trending never shows beside a typed query. */
  lemma PanelRules(s: BarState)
    ensures PanelOpen(s) ==> s.focused && s.showResults
    ensures PanelOpen(s) ==> s.suggestions != [] || s.history != [] || s.trending != []
    ensures ShowsTrending(s) ==> s.query == ""
  {
  }

  class SearchBox {
    const storage: Store
    var query: string
    var focused: bool
    var loading: bool
    var suggestions: seq<Movie>
    var history: seq<string>
    var trending: seq<Movie>
    var showResults: bool
    var pendingFetch: Option<string>

    /** The panel lists at most five live matches and five trending movies. */
    ghost predicate Valid()
      reads this
    {
      |suggestions| <= ListLimit && |trending| <= ListLimit
    }

    function State(): BarState
      reads this
    {
      BarState(query, focused, loading, suggestions, history, trending, showResults, pendingFetch)
    }

    /** The history as last written to storage, if it was. */
    function Persisted(): Option<Stored>
      reads this, storage
    {
      storage.Get(SearchHistoryKey)
    }

    constructor (storage: Store)
      ensures this.storage == storage && Valid()
      ensures State() == BarState("", false, false, [], [], [], false, None)
    {
      this.storage := storage;
      query, focused, loading, suggestions := "", false, false, [];
      history, trending, showResults, pendingFetch := [], [], false, None;
    }

    /**
     * The mount effect that reads the stored history. It has no handler for
     * a stored value that fails to parse, so that case leaves the state and
     * reports failure.
     */
    method LoadHistory() returns (ok: bool)
      requires Valid()
      modifies this
      ensures Valid()
      ensures var h := ParseTexts(storage.Get(SearchHistoryKey));
              ok == h.Parsed? && State() == if ok then old(State()).(history := h.value) else old(State())
    {
      var h := ParseTexts(storage.Get(SearchHistoryKey));
      ok := h.Parsed?;
      if ok {
        history := h.value;
      }
    }

    /** The mount effect that fetches today's trending movies and keeps the first five. */
    method LoadTrending(resp: ResultsResponse)
      requires Valid()
      modifies this
      ensures Valid()
      ensures resp.Results? ==> State() == old(State()).(trending := Take(resp.results, ListLimit))
      ensures resp.ResultsFailed? ==> State() == old(State())
    {
      if resp.Results? {
        trending := Take(resp.results, ListLimit);
      }
    }

    /** The input field gained focus. */
    method Focus()
      modifies this
      ensures State() == old(State()).(focused := true, showResults := true)
    {
      focused, showResults := true, true;
    }

    /**
     * `handleInputChange(value)`: any armed timer is cancelled; a value with
     * text arms a new one and shows the spinner, a blank value clears the
     * suggestions.
     */
    method HandleInputChange(value: string)
      requires Valid()
      modifies this
      ensures Valid()
      ensures !IsBlank(value) ==>
                State() == old(State()).(query := value, loading := true, pendingFetch := Some(value))
      ensures IsBlank(value) ==>
                State() == old(State()).(query := value, suggestions := [], loading := false, pendingFetch := None)
    {
      query := value;
      if !IsBlank(value) {
        loading := true;
        pendingFetch := Some(value);
      } else {
        suggestions := [];
        loading := false;
        pendingFetch := None;
      }
    }

    /**
     * The debounce timer fires: it fetches suggestions for the query it was
     * armed with and keeps the first five matches.
     */
    method DebounceFires(resp: ResultsResponse) returns (fetched: string)
      requires Valid() && pendingFetch.Some?
      modifies this
      ensures Valid() && fetched == old(pendingFetch).value
      ensures resp.Results? ==>
                State() == old(State()).(suggestions := Take(resp.results, ListLimit), loading := false, pendingFetch := None)
      ensures resp.ResultsFailed? ==>
                State() == old(State()).(loading := false, pendingFetch := None)
    {
      fetched := pendingFetch.value;
      pendingFetch := None;
      if resp.Results? {
        suggestions := Take(resp.results, ListLimit);
      }
      loading := false;
    }

    /** Set and persist the updated history, then close the panel; the callers hand the term to the page. */
    method Choose(newHistory: seq<string>)
      modifies this, storage
      ensures State() == old(State()).(history := newHistory, focused := false, showResults := false)
      ensures storage.items == old(storage.items)[SearchHistoryKey := TextList(newHistory)]
    {
      history := newHistory;
      storage.Set(SearchHistoryKey, TextList(newHistory));
      focused, showResults := false, false;
    }

    /**
     * `handleSearch()`: a query with text moves to the front of the history,
     * capped at five, and is searched; a blank query does nothing at all.
     */
    method HandleSearch() returns (searched: Option<string>)
      requires Valid()
      modifies this, storage
      ensures Valid()
      ensures IsBlank(old(query)) ==>
                searched == None && State() == old(State()) && storage.items == old(storage.items)
      ensures !IsBlank(old(query)) ==>
                && searched == Some(old(query))
                && State() == old(State()).(history := Remember(old(history), old(query)),
                                            focused := false, showResults := false)
                && Persisted() == Some(TextList(history))
                && storage.items == old(storage.items)[SearchHistoryKey := TextList(history)]
                && !PanelOpen(State())
    {
      if !IsBlank(query) {
        Choose(Remember(history, query));
        searched := Some(query);
      } else {
        searched := None;
      }
    }

    /**
     * `handleSuggestionClick(movie)`, for a live match or a trending movie:
     * its title becomes the query, moves to the front of the history, capped
     * at five, and is searched.
     */
    method HandleSuggestionClick(suggestion: Movie) returns (searched: string)
      requires Valid()
      modifies this, storage
      ensures Valid() && searched == suggestion.title
      ensures State() == old(State()).(query := suggestion.title,
                                       history := Remember(old(history), suggestion.title),
                                       focused := false, showResults := false)
      ensures Persisted() == Some(TextList(history)) && !PanelOpen(State())
      ensures storage.items == old(storage.items)[SearchHistoryKey := TextList(history)]
    {
      query := suggestion.title;
      Choose(Remember(history, suggestion.title));
      searched := suggestion.title;
    }

    /** `handleHistoryClick(item)`: the item moves to the front, without the cap. */
    method HandleHistoryClick(item: string) returns (searched: string)
      requires Valid()
      modifies this, storage
      ensures Valid() && searched == item
      ensures State() == old(State()).(query := item, history := MoveToFront(old(history), item),
                                       focused := false, showResults := false)
      ensures Persisted() == Some(TextList(history)) && !PanelOpen(State())
      ensures storage.items == old(storage.items)[SearchHistoryKey := TextList(history)]
    {
      query := item;
      Choose(MoveToFront(history, item));
      searched := item;
    }

    /** The clear button: the query and suggestions go, an armed timer stays armed. */
    method HandleClearSearch()
      requires Valid()
      modifies this
      ensures Valid()
      ensures State() == old(State()).(query := "", suggestions := [], loading := false)
    {
      query, suggestions, loading := "", [], false;
    }

    /** A click outside the bar closes the panel. */
    method HandleClickAway()
      modifies this
      ensures State() == old(State()).(focused := false, showResults := false)
      ensures !PanelOpen(State())
    {
      focused, showResults := false, false;
    }
  }
}
