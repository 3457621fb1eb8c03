/**
 * The movie detail page (src/pages/MovieDetails.jsx): the membership flags
 * read once when the details arrive, the flag-driven favorite and
 * watchlist toggles, and the pure selections the page renders (runtime,
 * directors, first cast members, trailer).
 */
module MovieDetails {
  import opened Wrappers
  import opened MovieLists
  import opened LocalStorage

  datatype Video = Video(key: string, kind: string, site: string)  // `kind` is the record's `type`
  datatype CrewMember = CrewMember(name: string, job: string)
  datatype CastMember = CastMember(name: string, character: string)
  datatype Credits = Credits(cast: Option<seq<CastMember>>, crew: Option<seq<CrewMember>>)

  /** The detail record: `summary` is what the collections store of it. */
  datatype MovieDetail = MovieDetail(
    summary: Movie,
    runtime: int,
    videos: seq<Video>,
    credits: Option<Credits>)

  /** How many cast members the page shows. */
  const CastShown := 5

  /** JavaScript's `%`: the remainder takes the sign of the dividend. */
  function JsRemainder(a: int, b: int): int
    requires b > 0
  {
    if a >= 0 then a % b else -((-a) % b)
  }

  /**
   * `formatRuntime(minutes)`: `Math.floor(minutes / 60)` hours and
   * `minutes % 60` minutes; for the positive runtimes the page shows, the
   * two recompose the runtime with fewer than 60 minutes left over.
   */
  function FormatRuntime(minutes: int): (r: (int, int))
    ensures minutes >= 0 ==> r.0 >= 0 && 0 <= r.1 < 60 && r.0 * 60 + r.1 == minutes
  {
    (minutes / 60, JsRemainder(minutes, 60))
  }

  predicate IsDirector(person: CrewMember) {
    person.job == "Director"
  }

  /** `crew.filter(person => person.job === "Director")` */
  function DirectorsIn(crew: seq<CrewMember>): (r: seq<CrewMember>)
    ensures forall p :: p in r <==> p in crew && IsDirector(p)
    ensures |r| <= |crew|
  {
    if crew == [] then []
    else if IsDirector(crew[0]) then [crew[0]] + DirectorsIn(crew[1..])
    else DirectorsIn(crew[1..])
  }

  /** Selection keeps crew order: the filter distributes over concatenation. */
  lemma {:induction false} DirectorsInConcat(a: seq<CrewMember>, b: seq<CrewMember>)
    ensures DirectorsIn(a + b) == DirectorsIn(a) + DirectorsIn(b)
  {
    if a == [] {
      assert a + b == b;
    } else {
      assert (a + b)[1..] == a[1..] + b;
      DirectorsInConcat(a[1..], b);
    }
  }

  /** `movie.credits?.crew?.filter(...) || []` */
  function Directors(credits: Option<Credits>): (r: seq<CrewMember>)
    ensures credits.None? || credits.value.crew.None? ==> r == []
    ensures credits.Some? && credits.value.crew.Some? ==> r == DirectorsIn(credits.value.crew.value)
  {
    if credits.Some? && credits.value.crew.Some? then DirectorsIn(credits.value.crew.value) else []
  }

  /** `movie.credits?.cast?.slice(0, 5) || []`: the first min(5, n) cast members. */
  function TopCast(credits: Option<Credits>): (r: seq<CastMember>)
    ensures credits.None? || credits.value.cast.None? ==> r == []
    ensures credits.Some? && credits.value.cast.Some? ==>
              var all := credits.value.cast.value;
              |r| == (if |all| < CastShown then |all| else CastShown) && r == all[..|r|]
  {
    if credits.Some? && credits.value.cast.Some? then
      var all := credits.value.cast.value;
      if |all| <= CastShown then all else all[..CastShown]
    else []
  }

  predicate IsYouTubeTrailer(v: Video) {
    v.kind == "Trailer" && v.site == "YouTube"
  }

  /** `videos.find(v => v.type === "Trailer" && v.site === "YouTube")` */
  function FindTrailer(videos: seq<Video>): (r: Option<Video>)
    ensures r.None? <==> forall i :: 0 <= i < |videos| ==> !IsYouTubeTrailer(videos[i])
    ensures r.Some? ==> exists i :: 0 <= i < |videos| && videos[i] == r.value && IsYouTubeTrailer(videos[i])
                                   && forall j :: 0 <= j < i ==> !IsYouTubeTrailer(videos[j])
  {
    if videos == [] then None
    else if IsYouTubeTrailer(videos[0]) then Some(videos[0])
    else
      var r := FindTrailer(videos[1..]);
      assert forall i :: 1 <= i < |videos| ==> videos[i] == videos[1..][i - 1];
      if r.Some? then
        var i :| 0 <= i < |videos[1..]| && videos[1..][i] == r.value && IsYouTubeTrailer(videos[1..][i])
                 && forall j :: 0 <= j < i ==> !IsYouTubeTrailer(videos[1..][j]);
        assert videos[i + 1] == r.value && IsYouTubeTrailer(videos[i + 1]);
        assert forall j :: 0 <= j < i + 1 ==> !IsYouTubeTrailer(videos[j]);
        r
      else r
  }

  /** The detail page component. */
  class DetailPage {
    const storage: Store
    var movie: Option<MovieDetail>
    var loading: bool
    var isFavorite: bool
    var isInWatchlist: bool

    constructor (storage: Store)
      ensures this.storage == storage
      ensures movie == None && loading && !isFavorite && !isInWatchlist
    {
      this.storage := storage;
      movie, loading, isFavorite, isInWatchlist := None, true, false, false;
    }

    /**
     * `fetchMovieDetails` with the reply as input (`None` for a failed
     * request). The flags are set only when both stored lists parse; a
     * parse failure is caught after the movie has already been set.
     */
    method FetchDetails(resp: Option<MovieDetail>)
      modifies this
      ensures !loading
      ensures resp.None? ==>
                movie == old(movie) && isFavorite == old(isFavorite) && isInWatchlist == old(isInWatchlist)
      ensures resp.Some? ==> movie == resp
      ensures var f, w := ParseMovies(storage.Get(FavoritesKey)), ParseMovies(storage.Get(WatchlistKey));
              if resp.Some? && f.Parsed? && w.Parsed? then
                && (isFavorite <==> HasId(f.value, resp.value.summary.id))
                && (isInWatchlist <==> HasId(w.value, resp.value.summary.id))
              else isFavorite == old(isFavorite) && isInWatchlist == old(isInWatchlist)
    {
      if resp.Some? {
        movie := resp;
        var f := ParseMovies(storage.Get(FavoritesKey));
        var w := ParseMovies(storage.Get(WatchlistKey));
        if f.Parsed? && w.Parsed? {
          isFavorite := HasId(f.value, resp.value.summary.id);
          isInWatchlist := HasId(w.value, resp.value.summary.id);
        }
      }
      loading := false;
    }

    /**
     * The toggle both buttons share, driven by the cached flag rather than
     * by the stored list: flag clear appends the movie unchecked, flag set
     * removes every entry with its id.
     */
    method ToggleStored(key: string, flag: bool) returns (ok: bool)
      requires movie.Some?
      modifies storage
      ensures var stored := ParseMovies(old(storage.Get(key)));
              var m := movie.value.summary;
              && ok == stored.Parsed?
              && (ok && !flag ==> storage.items == old(storage.items)[key := MovieList(stored.value + [m])])
              && (ok && flag ==> storage.items == old(storage.items)[key := MovieList(RemoveId(stored.value, m.id))])
              && (!ok ==> storage.items == old(storage.items))
    {
      var stored := ParseMovies(storage.Get(key));
      ok := stored.Parsed?;
      if ok {
        var m := movie.value.summary;
        if !flag {
          storage.Set(key, MovieList(stored.value + [m]));
        } else {
          storage.Set(key, MovieList(RemoveId(stored.value, m.id)));
        }
      }
    }

    /**
     * `toggleFavorite()`: writes the favorites and flips the flag. The
     * handler has no catch, so an unparsable stored list stops it before
     * anything changes; `ok` reports that.
     */
    method ToggleFavorite() returns (ok: bool)
      requires movie.Some?
      modifies this, storage
      ensures movie == old(movie) && loading == old(loading) && isInWatchlist == old(isInWatchlist)
      ensures var stored := ParseMovies(old(storage.Get(FavoritesKey)));
              var m := movie.value.summary;
              && ok == stored.Parsed?
              && (ok ==> isFavorite == !old(isFavorite))
              && (ok && !old(isFavorite) ==>
                    storage.items == old(storage.items)[FavoritesKey := MovieList(stored.value + [m])])
              && (ok && old(isFavorite) ==>
                    storage.items == old(storage.items)[FavoritesKey := MovieList(RemoveId(stored.value, m.id))])
              && (!ok ==> isFavorite == old(isFavorite) && storage.items == old(storage.items))
    {
      ok := ToggleStored(FavoritesKey, isFavorite);
      if ok {
        isFavorite := !isFavorite;
      }
    }

    /** `toggleWatchlist()`: the same rule on the watchlist and its flag. */
    method ToggleWatchlist() returns (ok: bool)
      requires movie.Some?
      modifies this, storage
      ensures movie == old(movie) && loading == old(loading) && isFavorite == old(isFavorite)
      ensures var stored := ParseMovies(old(storage.Get(WatchlistKey)));
              var m := movie.value.summary;
              && ok == stored.Parsed?
              && (ok ==> isInWatchlist == !old(isInWatchlist))
              && (ok && !old(isInWatchlist) ==>
                    storage.items == old(storage.items)[WatchlistKey := MovieList(stored.value + [m])])
              && (ok && old(isInWatchlist) ==>
                    storage.items == old(storage.items)[WatchlistKey := MovieList(RemoveId(stored.value, m.id))])
              && (!ok ==> isInWatchlist == old(isInWatchlist) && storage.items == old(storage.items))
    {
      ok := ToggleStored(WatchlistKey, isInWatchlist);
      if ok {
        isInWatchlist := !isInWatchlist;
      }
    }
  }

  /**
   * With a stale flag (clear although another view stored the movie since),
   * the detail toggle adds a second entry with the same id.
   */
  lemma StaleFlagDuplicates(stored: seq<Movie>, d: MovieDetail)
    requires HasId(stored, d.summary.id)
    ensures !UniqueIds(stored + [d.summary])
    ensures CountId(stored + [d.summary], d.summary.id) == CountId(stored, d.summary.id) + 1
  {
    AppendCanDuplicate(stored, d.summary);
  }

  /** With the flag set, the toggle leaves no entry with the movie's id and keeps the others in order. */
  lemma FlagSetRemovesAll(stored: seq<Movie>, d: MovieDetail, other: int)
    ensures !HasId(RemoveId(stored, d.summary.id), d.summary.id)
    ensures other != d.summary.id ==> CountId(RemoveId(stored, d.summary.id), other) == CountId(stored, other)
  {
    RemoveIdCounts(stored, d.summary.id, other);
  }
}
