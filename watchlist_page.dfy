/**
 * The watchlist page (src/pages/Watchlist.jsx): the stored watchlist read
 * on mount, and removal by id written straight back to storage.
 */
module WatchlistPage {
  import opened MovieLists
  import opened LocalStorage

  class WatchlistView {
    const storage: Store
    var watchlist: seq<Movie>

    constructor (storage: Store)
      ensures this.storage == storage && watchlist == []
    {
      this.storage := storage;
      watchlist := [];
    }

    /**
     * The mount effect: a missing key loads as the empty list. It has no
     * handler for a value that fails to parse, so that case leaves the state
     * and reports failure.
     */
    method Load() returns (ok: bool)
      modifies this
      ensures var w := ParseMovies(storage.Get(WatchlistKey));
              ok == w.Parsed? && watchlist == if ok then w.value else old(watchlist)
      ensures WatchlistKey !in storage.items ==> ok && watchlist == []
    {
      var w := ParseMovies(storage.Get(WatchlistKey));
      ok := w.Parsed?;
      if ok {
        watchlist := w.value;
      }
    }

    /**
     * `removeFromWatchlist(id)`: no entry with the id remains, every other
     * entry keeps its count and place, an absent id changes nothing, and
     * storage holds the new list.
     */
    method RemoveFromWatchlist(id: int)
      modifies this, storage
      ensures watchlist == RemoveId(old(watchlist), id) && !HasId(watchlist, id)
      ensures forall other :: other != id ==> CountId(watchlist, other) == CountId(old(watchlist), other)
      ensures !HasId(old(watchlist), id) ==> watchlist == old(watchlist)
      ensures storage.items == old(storage.items)[WatchlistKey := MovieList(watchlist)]
    {
      var updated := RemoveId(watchlist, id);
      forall other | other != id
        ensures CountId(updated, other) == CountId(watchlist, other)
      {
        RemoveIdCounts(watchlist, id, other);
      }
      if !HasId(watchlist, id) {
        RemoveAbsentId(watchlist, id);
      }
      watchlist := updated;
      storage.Set(WatchlistKey, MovieList(updated));
    }
  }
}
