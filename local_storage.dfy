/**
 * Browser-local storage as an abstract map from key to decoded value.
 * JSON encoding is the identity: a stored value is kept as what it decodes
 * to, and `Malformed` stands for text on which `JSON.parse` throws.
 */
module LocalStorage {
  import opened Wrappers
  import opened MovieLists

  const FavoritesKey := "favorites"
  const WatchlistKey := "watchlist"
  const SearchHistoryKey := "searchHistory"
  const UserKey := "user"
  const LoggedInKey := "loggedIn"
  const ThemeModeKey := "themeMode"

  /** What one storage key can hold. */
  datatype Stored =
    | MovieList(movies: seq<Movie>)                       // a JSON array of movie records
    | TextList(texts: seq<string>)                        // a JSON array of strings
    | UserRecord(username: string, password: string)      // a JSON object {username, password}
    | Text(text: string)                                  // a raw string, read without JSON.parse
    | Malformed                                           // text JSON.parse rejects

  /** The result of `JSON.parse(...) || []` on a list key: a list, or the exception it throws. */
  datatype Parsed<T> = Parsed(value: T) | ParseError

  /** The storage area every page shares. */
  class Store {
    var items: map<string, Stored>

    constructor (initial: map<string, Stored>)
      ensures items == initial
    {
      items := initial;
    }

    /** `localStorage.getItem(key)`, `None` for a missing key. */
    function Get(key: string): (v: Option<Stored>)
      reads this
      ensures v.Some? <==> key in items
      ensures v.Some? ==> v.value == items[key]
    {
      if key in items then Some(items[key]) else None
    }

    /** `localStorage.setItem(key, value)` */
    method Set(key: string, value: Stored)
      modifies this
      ensures items == old(items)[key := value]
    {
      items := items[key := value];
    }
  }

  /**
   * `JSON.parse(localStorage.getItem(key)) || []` for a key holding movies:
   * a missing key reads as the empty list and a list of movies as itself.
   * Any other value is read as a failure. For `Malformed` that is the
   * throw of `JSON.parse`; for a well-formed value of another shape (a list
   * of strings, a user record) the parse succeeds in JavaScript and the
   * caller goes on with a value that is not a list of movies, which this
   * model does not represent.
   */
  function ParseMovies(v: Option<Stored>): (r: Parsed<seq<Movie>>)
    ensures v.None? ==> r == Parsed([])
    ensures r.Parsed? && v.Some? ==> v.value == MovieList(r.value)
    ensures v.Some? && v.value.MovieList? ==> r == Parsed(v.value.movies)
  {
    match v
    case None => Parsed([])
    case Some(MovieList(movies)) => Parsed(movies)
    case Some(_) => ParseError
  }

  /** The same reading for a key holding a list of strings; other shapes read as a failure, as above. */
  function ParseTexts(v: Option<Stored>): (r: Parsed<seq<string>>)
    ensures v.None? ==> r == Parsed([])
    ensures r.Parsed? && v.Some? ==> v.value == TextList(r.value)
    ensures v.Some? && v.value.TextList? ==> r == Parsed(v.value.texts)
  {
    match v
    case None => Parsed([])
    case Some(TextList(texts)) => Parsed(texts)
    case Some(_) => ParseError
  }
}
