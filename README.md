# Movie explorer: verified model of the client-side logic

The application is a browser front end over a public movie catalog. Nearly
all of it is view code; the logic modelled here is what its event handlers
and effects do to component state and to browser-local storage:

- **Local collections** (favorites and watchlist): ordered lists of movie
  records keyed by `id`, toggled, appended to and filtered by id, each
  change written through to storage (`MovieLists`, `LocalStorage`).
- **Catalog browsing** on the movies page: sort order, genre filter, page
  accumulation, `hasMore`, search results that override the browsed list,
  and the page's favorite/watchlist toggles (`MoviesPage`).
- **Search bar**: the recent-search history (move to front, no duplicates,
  capped at five on two of its three paths), the debounced suggestion
  fetch, and when the suggestion panel and its trending section show
  (`SearchHistory`, `SearchBar`).
- **Detail page**: membership flags, flag-driven toggles, runtime
  formatting, director, cast and trailer selection (`MovieDetails`).
- **Favorites context**: append, remove, storage notification (`MovieContext`).
- **Watchlist page**, **sign-up** and **login** forms, and the **colour
  mode** (`WatchlistPage`, `Signup`, `Login`, `Theme`).

Storage is a shared `Store` object holding a map from key to decoded value.
JSON encoding is the identity, except that `Malformed` stands for text on
which `JSON.parse` throws. Catalog replies are method inputs, and each fetch
returns the request it would send. A component is a class whose fields are
its state and whose methods are its handlers and effects. Each method states
its whole new state, usually through a pure transition function. The lemmas
are proved about those functions.

Where the intended design and the code differ, the model follows the code. The two exceptions are the defects under "## Findings": there the component classes use the corrected definitions, and "## Left out" names the methods affected. The differences:

- Adding a favorite is not idempotent. `addFavorite` and the detail-page
  toggle append without checking for the id. Only the movies-page toggle checks.
- Any failed list fetch empties the list, including a failed "load more".
- A search leaves `hasMore` and the browsed list untouched.
- Suggestion replies are not ordered by request.

## Model

| member | source | states |
|---|---|---|
| MovieLists.RemoveId | src/context/MovieContext.jsx:43 | no entry with the id is left; an entry survives exactly when it was there with another id; never longer |
| MovieLists.RemoveIdConcat | src/pages/Watchlist.jsx:15 | removal distributes over concatenation, so survivors keep their relative order |
| MovieLists.RemoveAbsentId | src/pages/Watchlist.jsx:15 | removing an id no entry carries leaves the list unchanged |
| MovieLists.RemoveIdCounts | src/pages/Watchlist.jsx:15 | after removal the id occurs 0 times and every other id as often as before |
| MovieLists.RemoveIdKeepsUnique | src/pages/Movies.jsx:148 | removal keeps a list with unique ids unique |
| MovieLists.Toggled | src/pages/Movies.jsx:144-156 | a stored id means every entry with it is removed and the rest keep their order; an absent id means the movie is appended at the end; either way the id's membership flips and every other id's membership is unchanged |
| MovieLists.ToggledKeepsUnique | src/pages/Movies.jsx:144-156 | the membership-checked toggle never creates a duplicate id |
| MovieLists.ToggleTwiceRestores | src/pages/Movies.jsx:144-156 | adding an absent movie and toggling it again restores the original list |
| MovieLists.AppendCanDuplicate | src/context/MovieContext.jsx:29-30 | an unchecked append of a stored id makes ids non-unique: one more entry with that id, length + 1 |
| LocalStorage.Store.Get | src/context/MovieContext.jsx:11 | `getItem` yields the stored value exactly when the key is present |
| LocalStorage.Store.Set | src/context/MovieContext.jsx:32 | `setItem` updates that one key and nothing else |
| LocalStorage.ParseMovies | src/pages/Watchlist.jsx:10 | a missing key reads as the empty list and a stored movie list as exactly itself; every other stored value reads as a failure (see "## Left out") |
| LocalStorage.ParseTexts | src/components/SearchBar.jsx:47 | the same reading for the stored search history: missing is empty, a list of strings is itself, anything else a failure |
| MoviesPage.Endpoint | src/pages/Movies.jsx:66-68 | `top_rated` and `upcoming` map to themselves, every other sort order to `popular` |
| MoviesPage.Fetch | src/pages/Movies.jsx:62-93 | the request carries the render's page; page 1 replaces the list, a later page appends after the old list intact; `hasMore` iff page < total pages (missing or 0 read as 1); a failure empties the list and clears `hasMore`; only list, `hasMore` and the loading flags change |
| MoviesPage.Reset | src/pages/Movies.jsx:96-102 | a sort or genre change requests and lands on page 1 of the new listing, with only that page's results; sort order, genre filter and search results are unchanged |
| MoviesPage.ResetAsWritten | src/pages/Movies.jsx:96-102 | the effect as written requests the previous page number while the page state becomes 1; only list, `hasMore`, page and the loading flags change |
| MoviesPage.StaleResetFetchesOldPage | src/pages/Movies.jsx:96-102 | on page 3 the written reset fetches page 3 of the new listing, and the next "load more" asks for page 2 |
| MoviesPage.ResetAgreesOnFirstPage | src/pages/Movies.jsx:96-102 | written and corrected resets coincide when the render was on page 1 |
| MoviesPage.LoadMore | src/pages/Movies.jsx:105-110 | the next page is requested and appended after the existing list; `hasMore` compares it with the page count; failure empties the list; sort order, genre filter and search results are unchanged |
| MoviesPage.Displayed | src/pages/Movies.jsx:240 | the search results whenever present, even an empty list of them; the browsed list only when there are none |
| MoviesPage.Search | src/pages/Movies.jsx:113-131 | an empty query clears the search results, any other query sets them (empty on failure); nothing else but `loading` changes |
| MoviesPage.GenreClicked | src/pages/Movies.jsx:204-210 | clicking the active genre clears the filter; any other id becomes the single active genre; the filter always changes |
| MoviesPage.IsMember | src/pages/Movies.jsx:229-238 | true iff the id is non-zero (truthy) and some entry carries it |
| MoviesPage.Browse | src/pages/Movies.jsx:134-137 | after a reset and n "load more" clicks the page is n + 1 |
| MoviesPage.PagesAccumulate | src/pages/Movies.jsx:77-81 | after a reset and successful "load more" fetches the list is all pages' results in page order |
| MoviesPage.BrowseHasMore | src/pages/Movies.jsx:83-91 | `hasMore` holds iff the last fetch succeeded and the page is below its page count; a failed last fetch leaves the list empty |
| MoviesPage.SearchLeavesBrowsing | src/pages/Movies.jsx:240 | searching never touches list, page or `hasMore`; the displayed list is the results when present, else the browsed list |
| MoviesPage.SearchThenClearRestores | src/pages/Movies.jsx:115-118 | a search followed by an empty search returns exactly to the browsed list and page |
| MoviesPage.CatalogPage.constructor | src/pages/Movies.jsx:32-43 | initial browsing state; both collections from storage, both empty if either fails to parse |
| MoviesPage.CatalogPage.ChangeSortOrder | src/pages/Movies.jsx:198-201 | the same order changes nothing; a new order runs the corrected reset (`Reset`, page 1) and its fetch |
| MoviesPage.CatalogPage.FilterByGenre | src/pages/Movies.jsx:204-210 | the genre rule is applied, and the corrected reset (`Reset`, page 1) and its fetch always run |
| MoviesPage.CatalogPage.HandleSearch | src/pages/Movies.jsx:113-131 | state becomes `Search` of the old state; collections untouched |
| MoviesPage.CatalogPage.DismissSearch | src/pages/Movies.jsx:259 | the results chip's delete drops the search results only |
| MoviesPage.CatalogPage.Mount | src/pages/Movies.jsx:96-102 | the reset effect's first run, from the first render on page 1: page 1 of the initial listing is requested and shown; the effect as written and as intended agree here |
| MoviesPage.CatalogPage.CanLoadMore | src/pages/Movies.jsx:290-296 | the "Load More" button shows only while no search results are displayed and more pages exist, and it is enabled only while no page is loading; whenever it is available, the browsed list is what is displayed |
| MoviesPage.CatalogPage.HandleSeeMore | src/pages/Movies.jsx:134-137 | page goes up by exactly one and that page is fetched and appended |
| MoviesPage.CatalogPage.ToggleStored | src/pages/Movies.jsx:144-157 | the stored list is re-read, toggled and written back; a parse failure writes nothing |
| MoviesPage.CatalogPage.HandleFavorite | src/pages/Movies.jsx:140-162 | favorites become the toggled stored list and storage holds the same list; a missing movie or parse failure changes nothing |
| MoviesPage.CatalogPage.HandleWatchlist | src/pages/Movies.jsx:165-187 | the same for the watchlist |
| MoviesPage.CatalogPage.IsInFavorites | src/pages/Movies.jsx:229-232 | true iff the id is non-zero and in the favorites state |
| MoviesPage.CatalogPage.IsInWatchlist | src/pages/Movies.jsx:235-238 | true iff the id is non-zero and in the watchlist state |
| SearchHistory.Take | src/components/SearchBar.jsx:108 | `slice(0, n)`: a prefix of length min(n, length) |
| SearchHistory.Without | src/components/SearchBar.jsx:107 | the term is gone, every other entry stays, never longer |
| SearchHistory.WithoutConcat | src/components/SearchBar.jsx:107 | the filter keeps surviving entries in order |
| SearchHistory.MoveToFront | src/components/SearchBar.jsx:145-148 | the term is first and nowhere else |
| SearchHistory.Remember | src/components/SearchBar.jsx:105-108 | between 1 and 5 entries, the term first |
| SearchHistory.RememberHoldsTermOnce | src/components/SearchBar.jsx:105-108 | the term occurs exactly once, at index 0, length at most 5 |
| SearchHistory.RememberKeepsOlderEntries | src/components/SearchBar.jsx:127-130 | behind the term come the older entries other than it, newest first, as many as fit in 5 |
| SearchHistory.WithoutKeepsDistinct | src/components/SearchBar.jsx:107 | the filter keeps a duplicate-free list duplicate-free |
| SearchHistory.MoveToFrontKeepsDistinct | src/components/SearchBar.jsx:145-148 | the uncapped update keeps a duplicate-free history duplicate-free |
| SearchHistory.RememberKeepsDistinct | src/components/SearchBar.jsx:127-130 | the capped update keeps a duplicate-free history duplicate-free |
| SearchHistory.HistoryClickPermutes | src/components/SearchBar.jsx:145-148 | clicking an entry of a duplicate-free history permutes it, same length |
| SearchBar.ShouldShowSuggestions | src/components/SearchBar.jsx:184-185 | true iff the input is focused and at least one of suggestions, history and trending is non-empty |
| SearchBar.PanelRules | src/components/SearchBar.jsx:184-185 | the panel is open only when focused, shown, and some list is non-empty; trending shows only for an empty query |
| SearchBar.SearchBox.constructor | src/components/SearchBar.jsx:33-40 | empty query, lists and history, unfocused, no timer |
| SearchBar.SearchBox.LoadHistory | src/components/SearchBar.jsx:46-49 | history becomes the stored one (missing reads as empty); a parse failure changes nothing |
| SearchBar.SearchBox.LoadTrending | src/components/SearchBar.jsx:52-64 | trending becomes the first five results; a failure changes nothing |
| SearchBar.SearchBox.Focus | src/components/SearchBar.jsx:260-262 | focusing sets `focused` and `showResults` |
| SearchBar.SearchBox.HandleInputChange | src/components/SearchBar.jsx:67-86 | a non-blank value shows loading and arms the timer for it; a blank one clears suggestions, loading and the timer; at most 5 suggestions |
| SearchBar.SearchBox.DebounceFires | src/components/SearchBar.jsx:88-99 | the armed query is fetched; suggestions become the first five results; loading ends either way |
| SearchBar.SearchBox.Choose | src/components/SearchBar.jsx:110-118 | history set and persisted identically, panel closed |
| SearchBar.SearchBox.HandleSearch | src/components/SearchBar.jsx:102-120 | a blank query changes nothing and searches nothing; otherwise the capped move-to-front, the same history persisted under 'searchHistory' with every other key unchanged, the query searched, the panel closed |
| SearchBar.SearchBox.HandleSuggestionClick | src/components/SearchBar.jsx:123-140 | the title becomes the query, goes through the capped update, is persisted under 'searchHistory' with every other key unchanged, and is searched |
| SearchBar.SearchBox.HandleHistoryClick | src/components/SearchBar.jsx:142-157 | the item moves to the front uncapped, is persisted under 'searchHistory' with every other key unchanged, and is searched |
| SearchBar.SearchBox.HandleClearSearch | src/components/SearchBar.jsx:159-166 | query and suggestions cleared, loading off, an armed timer left armed |
| SearchBar.SearchBox.HandleClickAway | src/components/SearchBar.jsx:168-171 | the panel closes |
| MovieDetails.FormatRuntime | src/pages/MovieDetails.jsx:153-157 | for a non-negative runtime, hours * 60 + minutes is the runtime and 0 <= minutes < 60 |
| MovieDetails.DirectorsIn | src/pages/MovieDetails.jsx:149 | exactly the crew members whose job is "Director" |
| MovieDetails.DirectorsInConcat | src/pages/MovieDetails.jsx:149 | directors keep crew order |
| MovieDetails.Directors | src/pages/MovieDetails.jsx:149 | missing credits or crew give no directors |
| MovieDetails.TopCast | src/pages/MovieDetails.jsx:150 | the first min(5, n) cast members; none when credits or cast are missing |
| MovieDetails.FindTrailer | src/pages/MovieDetails.jsx:145-147 | the first YouTube trailer, or none exactly when no video is one |
| MovieDetails.DetailPage.constructor | src/pages/MovieDetails.jsx:38-42 | no movie, loading, both flags clear |
| MovieDetails.DetailPage.FetchDetails | src/pages/MovieDetails.jsx:44-62 | on success the movie is set, and each flag is true iff the stored list has its id when both lists parse; loading ends |
| MovieDetails.DetailPage.ToggleStored | src/pages/MovieDetails.jsx:65-72 | flag clear appends unchecked, flag set removes every entry with the id; parse failure writes nothing |
| MovieDetails.DetailPage.ToggleFavorite | src/pages/MovieDetails.jsx:64-75 | the favorites written per the flag, then the flag flips; an unparsable list changes nothing |
| MovieDetails.DetailPage.ToggleWatchlist | src/pages/MovieDetails.jsx:77-88 | the same for the watchlist and its flag |
| MovieDetails.StaleFlagDuplicates | src/pages/MovieDetails.jsx:67-68 | with a stale clear flag the toggle stores a second entry with the same id |
| MovieDetails.FlagSetRemovesAll | src/pages/MovieDetails.jsx:70 | with the flag set no entry with the id remains and other ids keep their counts |
| MovieContext.OnStorageAsWritten | src/context/MovieContext.jsx:15-18 | as written, any event carrying a value is read as the new favorites, whatever its key; a 'favorites' event without a value falls back to the stored favorites; an event with neither leaves them |
| MovieContext.OnStorage | src/context/MovieContext.jsx:15-18 | events about other keys leave the favorites; a 'favorites' event is read as the new favorites from its value, or from the stored favorites when it carries none; the provider's own notification leaves them as published |
| MovieContext.WatchlistEventReplacesFavorites | src/context/MovieContext.jsx:16-17 | a 'watchlist' event turns the favorites into the watchlist as written, and leaves them as intended |
| MovieContext.ListenersAgreeOnFavorites | src/context/MovieContext.jsx:16-17 | on 'favorites' events the two listeners agree |
| MovieContext.FavoritesProvider.constructor | src/context/MovieContext.jsx:7 | favorites start empty |
| MovieContext.FavoritesProvider.Load | src/context/MovieContext.jsx:10-12 | favorites from storage, missing read as empty; a parse failure changes nothing |
| MovieContext.FavoritesProvider.Publish | src/context/MovieContext.jsx:31-38 | state, storage and notification payload all hold the new list |
| MovieContext.FavoritesProvider.AddFavorite | src/context/MovieContext.jsx:29-39 | the movie appended at the end, length + 1, persisted and notified under 'favorites' |
| MovieContext.FavoritesProvider.RemoveFavorite | src/context/MovieContext.jsx:42-52 | every entry with the id removed, others in order, an absent id a no-op; persisted and notified |
| MovieContext.FavoritesProvider.HandleStorageChange | src/context/MovieContext.jsx:15-18 | favorites replaced per the corrected listener `OnStorage`; a parse failure changes nothing |
| MovieContext.NotificationRoundTrip | src/context/MovieContext.jsx:35-38 | delivering an add's own notification back leaves exactly the appended list |
| WatchlistPage.WatchlistView.constructor | src/pages/Watchlist.jsx:6 | the watchlist starts empty |
| WatchlistPage.WatchlistView.Load | src/pages/Watchlist.jsx:9-12 | the stored watchlist, a missing key read as empty; a parse failure changes nothing |
| WatchlistPage.WatchlistView.RemoveFromWatchlist | src/pages/Watchlist.jsx:14-18 | no entry with the id remains, other ids keep their counts and order, an absent id is a no-op, storage holds the new list |
| JsText.TrimStartFrom | src/pages/Signup.jsx:38 | where `trim` begins: every character it skips is white space, and the character it stops at is not |
| JsText.TrimEndFrom | src/pages/Signup.jsx:38 | where `trim` ends: every character it cuts off at the end is white space, and the last one it keeps is not |
| JsText.Trim | src/pages/Signup.jsx:38 | `s.trim()` is a slice `s[i..j]` with only white space before `i` and from `j` on; a non-empty result neither starts nor ends with white space |
| JsText.BlankIffTrimsEmpty | src/pages/Login.jsx:33 | `!s.trim()` holds exactly when every character of `s` is white space (`IsBlank`) |
| JsText.Utf16Length | src/pages/Signup.jsx:48 | `s.length` is the number of characters plus the number of characters beyond the Basic Multilingual Plane, so each of those counts twice; it lies between `|s|` and `2 * |s|` |
| Signup.SignupError | src/pages/Signup.jsx:38-56 | no error iff all four checks pass; otherwise the message of the first failing check, in order; the length check counts UTF-16 code units |
| Signup.LengthCountsCodeUnits | src/pages/Signup.jsx:48 | "abcd" plus one emoji is long enough (six code units), while "abcd" plus "é" is too short |
| Signup.TrimOnlyInBlankCheck | src/pages/Signup.jsx:43-48 | six spaces fail as "required", while "  abcd" passes the length check |
| Signup.SignupForm.constructor | src/pages/Signup.jsx:23-29 | empty fields, no error |
| Signup.SignupForm.HandleSignup | src/pages/Signup.jsx:34-66 | a failing check sets its message and stores nothing; success stores the untrimmed credentials and clears the form and error |
| Login.CheckLogin | src/pages/Login.jsx:33-55 | login succeeds iff both fields are non-blank and the stored record matches both exactly; each failure gets its message: blank fields, no user (missing or empty), a mismatched record or a stored array (invalid credentials), and a non-empty raw string or unparsable text (generic error) |
| Login.SignupThenLogin | src/pages/Signup.jsx:59 | credentials a successful sign-up stores log in |
| Login.LoginDoesNotTrim | src/pages/Login.jsx:42 | a trailing space in the password is a mismatch |
| Login.LoginForm.constructor | src/pages/Login.jsx:22-24 | empty fields, no error |
| Login.LoginForm.HandleLogin | src/pages/Login.jsx:30-56 | a match writes `loggedIn` = 'true' and clears the error; otherwise the message is set and storage untouched |
| Theme.InitialMode | src/context/ThemeContext.jsx:10-13 | a saved non-empty mode, else 'dark' |
| Theme.Toggled | src/context/ThemeContext.jsx:19 | 'light' becomes 'dark', anything else 'light' |
| Theme.ToggleTwice | src/context/ThemeContext.jsx:19 | two toggles restore 'light' or 'dark' |
| Theme.ColorMode.constructor | src/context/ThemeContext.jsx:10-13 | the mode starts as the initial mode |
| Theme.ColorMode.ToggleColorMode | src/context/ThemeContext.jsx:17-22 | the mode toggles and the new mode is persisted |

## Findings

| source | as written | input that shows it | evidently intended | confidence | as-written member | corrected member |
|---|---|---|---|---|---|---|
| src/pages/Movies.jsx:96-102 | the reset effect calls the `fetchMovies` closure of the render in which the filter changed, which still reads that render's page | on page 3 of 'popular', choose 'top_rated': page 3 of the new listing is requested and shown while the page state is 1; the next "Load More" appends page 2 after it | the reset fetches page 1 of the new listing | not executed; high | MoviesPage.StaleResetFetchesOldPage | MoviesPage.Reset |
| src/context/MovieContext.jsx:15-18 | the listener accepts any event with a new value, since every event it receives has type 'storage' | a 'watchlist' change in another tab, new value [w]: the favorites become [w] | only notifications about 'favorites' replace the favorites | not executed; medium | MovieContext.WatchlistEventReplacesFavorites | MovieContext.OnStorage |

The component classes use the corrected definitions. The methods this affects are listed under "## Left out".

## Left out

- MoviesPage.CatalogPage.ChangeSortOrder: uses the corrected `Reset`. From a render on a page above 1, the source requests that page of the new listing, as `ResetAsWritten` states. This contract does not describe that case.
- MoviesPage.CatalogPage.FilterByGenre: the same as `ChangeSortOrder`. It uses the corrected `Reset`, not `ResetAsWritten`.
- MovieContext.OnStorageAsWritten: in the source a well-formed value of another shape, such as a 'searchHistory' event carrying `["batman"]` or a 'user' event carrying the credentials, is adopted as the favorites. Favorites are lists of movies here, so the model reads such a value as a parse failure, which keeps the favorites.
- LocalStorage.ParseMovies: `JSON.parse` succeeds on an array of strings or an object, and the source then goes on with that value as if it were a movie list. The model reads every stored value that is not a movie list as a failure.
- LocalStorage.ParseTexts: likewise, a well-formed stored value that is not a list of strings parses in the source, while the model reads it as a failure.
- MovieContext.FavoritesProvider.HandleStorageChange: uses the corrected `OnStorage`. The source replaces the favorites on any event that carries a value, whatever its key, as `OnStorageAsWritten` states. This contract does not describe that case.
- HTTP requests are not modelled. Each reply is a method input, and each list fetch returns the request it would send.
- Debounce timing is not modelled: an armed timer is just the query it will fetch. Request ordering is not modelled either.
- Cross-tab delivery of storage events is not modelled. `window` event dispatch is modelled as a returned event value.
- JSON encoding is not modelled. Stored values keep their decoded form. Null list entries are not modelled, so the `item &&` guards have no counterpart.
- A detail record stores only its `Movie` summary (id and title) in a collection. The source stores the whole detail object.
- Storage write failures (quota) are not modelled. This covers the sign-up's catch branch.
- Floating-point rating display, date parsing, navigation, focus, scrolling and snackbar messages are view code and are not modelled.
- The genre list fetch is not modelled. Neither is the view layer (Navbar, Footer, Landing, Favorites, MovieCard, MovieGrid and the other presentational components).
- MovieDetails.FormatRuntime: the string `"<h>h <m>m"` is not built; the result is the (hours, minutes) pair. It is stated only for non-negative runtimes, since the page calls it only for positive ones.
- Theme.InitialMode: a stored non-text value becomes the mode in the source. The model reads it as 'dark'.
- Login.CheckLogin: a stored raw string that happens to be valid JSON is treated as unparsable.
