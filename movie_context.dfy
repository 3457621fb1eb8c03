/**
 * The shared favorites context (src/context/MovieContext.jsx): favorites
 * held in state, loaded from storage on mount, appended to and removed
 * from with a write-through and a change notification, and replaced when
 * a storage notification arrives. Dispatching a notification is modelled
 * as returning it.
 */
module MovieContext {
  import opened Wrappers
  import opened MovieLists
  import opened LocalStorage

  /** A `storage` event: the key it names and the new value it carries, if any. */
  datatype StorageEvent = StorageEvent(key: Option<string>, newValue: Option<Stored>)

  /** A carried value is truthy unless missing or the empty string. */
  predicate Truthy(v: Option<Stored>) {
    v.Some? && v.value != Text("")
  }

  /**
   * The listener as written: it reacts to an event naming 'favorites', but
   * also to any event carrying a value (every listener event is of type
   * 'storage'), and replaces the favorites with that value, falling back to
   * the stored favorites.
   */
  function OnStorageAsWritten(event: StorageEvent, stored: Option<Stored>, favorites: seq<Movie>)
    : (r: Parsed<seq<Movie>>)
    ensures Truthy(event.newValue) ==> r == ParseMovies(event.newValue)
    ensures event.key == Some(FavoritesKey) && !Truthy(event.newValue) ==> r == ParseMovies(stored)
    ensures event.key != Some(FavoritesKey) && !Truthy(event.newValue) ==> r == Parsed(favorites)
  {
    if event.key == Some(FavoritesKey) || Truthy(event.newValue) then
      ParseMovies(if Truthy(event.newValue) then event.newValue else stored)
    else Parsed(favorites)
  }

  /**
   * The listener as intended: only a notification about 'favorites'
   * replaces the favorites, with its value or else the stored list.
   */
  function OnStorage(event: StorageEvent, stored: Option<Stored>, favorites: seq<Movie>)
    : (r: Parsed<seq<Movie>>)
    ensures event.key != Some(FavoritesKey) ==> r == Parsed(favorites)
    ensures event.key == Some(FavoritesKey) && Truthy(event.newValue) ==> r == ParseMovies(event.newValue)
    ensures event.key == Some(FavoritesKey) && !Truthy(event.newValue) ==> r == ParseMovies(stored)
    ensures event.key == Some(FavoritesKey) && event.newValue == Some(MovieList(favorites)) ==> r == Parsed(favorites)
  {
    if event.key == Some(FavoritesKey) then
      ParseMovies(if Truthy(event.newValue) then event.newValue else stored)
    else Parsed(favorites)
  }

  /**
   * A watchlist change in another tab reaches the listener as written and
   * turns the favorites into the watchlist.
   */
  lemma WatchlistEventReplacesFavorites(favorites: seq<Movie>, watchlist: seq<Movie>, stored: Option<Stored>)
    ensures OnStorageAsWritten(StorageEvent(Some(WatchlistKey), Some(MovieList(watchlist))), stored, favorites)
              == Parsed(watchlist)
    ensures OnStorage(StorageEvent(Some(WatchlistKey), Some(MovieList(watchlist))), stored, favorites)
              == Parsed(favorites)
  {
  }

  /** On an event that names 'favorites' the two listeners agree. */
  lemma ListenersAgreeOnFavorites(event: StorageEvent, stored: Option<Stored>, favorites: seq<Movie>)
    requires event.key == Some(FavoritesKey)
    ensures OnStorageAsWritten(event, stored, favorites) == OnStorage(event, stored, favorites)
  {
  }

  class FavoritesProvider {
    const storage: Store
    var favorites: seq<Movie>

    constructor (storage: Store)
      ensures this.storage == storage && favorites == []
    {
      this.storage := storage;
      favorites := [];
    }

    /**
     * The mount effect: favorites from storage, a missing key read as the
     * empty list. It has no handler for a value that fails to parse, so that
     * case leaves the state and reports failure.
     */
    method Load() returns (ok: bool)
      modifies this
      ensures var f := ParseMovies(storage.Get(FavoritesKey));
              ok == f.Parsed? && favorites == if ok then f.value else old(favorites)
    {
      var f := ParseMovies(storage.Get(FavoritesKey));
      ok := f.Parsed?;
      if ok {
        favorites := f.value;
      }
    }

    /** State, storage and a notification all receive the new list. */
    method Publish(updated: seq<Movie>) returns (event: StorageEvent)
      modifies this, storage
      ensures favorites == updated
      ensures storage.items == old(storage.items)[FavoritesKey := MovieList(updated)]
      ensures event == StorageEvent(Some(FavoritesKey), Some(MovieList(updated)))
    {
      favorites := updated;
      storage.Set(FavoritesKey, MovieList(updated));
      event := StorageEvent(Some(FavoritesKey), Some(MovieList(updated)));
    }

    /** `addFavorite(movie)`: an unchecked append at the end. */
    method AddFavorite(movie: Movie) returns (event: StorageEvent)
      modifies this, storage
      ensures favorites == old(favorites) + [movie] && |favorites| == |old(favorites)| + 1
      ensures storage.items == old(storage.items)[FavoritesKey := MovieList(favorites)]
      ensures event == StorageEvent(Some(FavoritesKey), Some(MovieList(favorites)))
    {
      event := Publish(favorites + [movie]);
    }

    /** `removeFavorite(id)`: every entry with the id goes, the rest keep their order. */
    method RemoveFavorite(id: int) returns (event: StorageEvent)
      modifies this, storage
      ensures favorites == RemoveId(old(favorites), id) && !HasId(favorites, id)
      ensures !HasId(old(favorites), id) ==> favorites == old(favorites)
      ensures storage.items == old(storage.items)[FavoritesKey := MovieList(favorites)]
      ensures event == StorageEvent(Some(FavoritesKey), Some(MovieList(favorites)))
    {
      if !HasId(favorites, id) {
        RemoveAbsentId(favorites, id);
      }
      event := Publish(RemoveId(favorites, id));
    }

    /**
     * `handleStorageChange(event)`, as intended (see `OnStorageAsWritten`
     * for the code as written). A value that fails to parse throws in the
     * listener and leaves the state.
     */
    method HandleStorageChange(event: StorageEvent) returns (ok: bool)
      modifies this
      ensures var r := OnStorage(event, storage.Get(FavoritesKey), old(favorites));
              ok == r.Parsed? && favorites == if ok then r.value else old(favorites)
    {
      var r := OnStorage(event, storage.Get(FavoritesKey), favorites);
      ok := r.Parsed?;
      if ok {
        favorites := r.value;
      }
    }
  }

  /** The provider's own notification, delivered back to it, leaves the new favorites in place. */
  method NotificationRoundTrip(p: FavoritesProvider, movie: Movie)
    modifies p, p.storage
    ensures p.favorites == old(p.favorites) + [movie]
  {
    var event := p.AddFavorite(movie);
    var ok := p.HandleStorageChange(event);
    assert ok;
  }
}
