/**
 * Movie records and the list operations shared by the favorites and
 * watchlist collections: membership by id, removal of every entry with
 * an id, and the membership-checked toggle of the catalog page.
 */
module MovieLists {

  /** A movie as the collections store it; entries are keyed by `id`. */
  datatype Movie = Movie(id: int, title: string)

  /** `list.some(item => item.id === id)` */
  predicate HasId(list: seq<Movie>, id: int) {
    exists i :: 0 <= i < |list| && list[i].id == id
  }

  /** No two entries share an id. */
  predicate UniqueIds(list: seq<Movie>) {
    forall i, j :: 0 <= i < j < |list| ==> list[i].id != list[j].id
  }

  /** How many entries carry `id`. */
  function CountId(list: seq<Movie>, id: int): nat {
    if list == [] then 0
    else (if list[0].id == id then 1 else 0) + CountId(list[1..], id)
  }

  /**
   * `list.filter(item => item.id !== id)`: every entry with `id` goes,
   * every other entry stays.
   */
  function RemoveId(list: seq<Movie>, id: int): (r: seq<Movie>)
    ensures !HasId(r, id)
    ensures forall m :: m in r <==> m in list && m.id != id
    ensures |r| <= |list|
  {
    if list == [] then []
    else if list[0].id == id then RemoveId(list[1..], id)
    else [list[0]] + RemoveId(list[1..], id)
  }

  /**
   * The membership-checked toggle: an entry with the movie's id present
   * means remove every such entry, otherwise append the movie at the end.
   */
  function Toggled(list: seq<Movie>, movie: Movie): (r: seq<Movie>)
    ensures HasId(list, movie.id) ==> r == RemoveId(list, movie.id)
    ensures !HasId(list, movie.id) ==> r == list + [movie]
    ensures HasId(r, movie.id) <==> !HasId(list, movie.id)
    ensures forall id :: id != movie.id ==> (HasId(r, id) <==> HasId(list, id))
  {
    if HasId(list, movie.id) then RemoveId(list, movie.id)
    else
      assert (list + [movie])[|list|].id == movie.id;
      assert forall id :: HasId(list, id) ==> HasId(list + [movie], id) by {
        forall id | HasId(list, id) ensures HasId(list + [movie], id) {
          var i :| 0 <= i < |list| && list[i].id == id;
          assert (list + [movie])[i].id == id;
        }
      }
      list + [movie]
  }

  /** Removal keeps the survivors in their original order: it distributes over concatenation. */
  lemma {:induction false} RemoveIdConcat(a: seq<Movie>, b: seq<Movie>, id: int)
    ensures RemoveId(a + b, id) == RemoveId(a, id) + RemoveId(b, id)
  {
    if a == [] {
      assert a + b == b;
    } else {
      assert (a + b)[0] == a[0];
      assert (a + b)[1..] == a[1..] + b;
      RemoveIdConcat(a[1..], b, id);
    }
  }

  /** Removing an id nobody carries leaves the list exactly as it was. */
  lemma {:induction false} RemoveAbsentId(list: seq<Movie>, id: int)
    requires !HasId(list, id)
    ensures RemoveId(list, id) == list
  {
    if list != [] {
      var rest := list[1..];
      assert list[0].id != id;
      assert !HasId(rest, id) by {
        forall k | 0 <= k < |rest| ensures rest[k].id != id {
          assert rest[k] == list[k + 1];
        }
      }
      RemoveAbsentId(rest, id);
      assert list == [list[0]] + rest;
    }
  }

  /** Removal drops exactly the entries with `id`: the count of every other id is kept. */
  lemma {:induction false} RemoveIdCounts(list: seq<Movie>, id: int, other: int)
    ensures CountId(RemoveId(list, id), other) == if other == id then 0 else CountId(list, other)
  {
    if list != [] {
      RemoveIdCounts(list[1..], id, other);
      if list[0].id != id {
        assert ([list[0]] + RemoveId(list[1..], id))[1..] == RemoveId(list[1..], id);
      }
    }
  }

  /** A head whose id its tail does not carry, on a tail of unique ids, keeps ids unique. */
  lemma ConsUnique(head: Movie, tail: seq<Movie>)
    requires UniqueIds(tail) && !HasId(tail, head.id)
    ensures UniqueIds([head] + tail)
  {
    var r := [head] + tail;
    forall i, j | 0 <= i < j < |r| ensures r[i].id != r[j].id {
      assert r[j] == tail[j - 1];
      if i > 0 {
        assert r[i] == tail[i - 1];
      }
    }
  }

  /** The tail of a list of unique ids has unique ids and lacks the head's id. */
  lemma UniqueTail(list: seq<Movie>)
    requires UniqueIds(list) && list != []
    ensures UniqueIds(list[1..]) && !HasId(list[1..], list[0].id)
  {
    var rest := list[1..];
    forall i, j | 0 <= i < j < |rest| ensures rest[i].id != rest[j].id {
      assert rest[i] == list[i + 1] && rest[j] == list[j + 1];
    }
    forall k | 0 <= k < |rest| ensures rest[k].id != list[0].id {
      assert rest[k] == list[k + 1];
    }
  }

  /** Removal never introduces an id the list lacked. */
  lemma RemoveIdLacks(list: seq<Movie>, id: int, other: int)
    requires !HasId(list, other)
    ensures !HasId(RemoveId(list, id), other)
  {
    var r := RemoveId(list, id);
    forall k | 0 <= k < |r| ensures r[k].id != other {
      assert r[k] in list;
      var i :| 0 <= i < |list| && list[i] == r[k];
    }
  }

  /** A list of unique ids stays so after removal. */
  lemma {:induction false} RemoveIdKeepsUnique(list: seq<Movie>, id: int)
    requires UniqueIds(list)
    ensures UniqueIds(RemoveId(list, id))
  {
    if list != [] {
      UniqueTail(list);
      RemoveIdKeepsUnique(list[1..], id);
      if list[0].id != id {
        RemoveIdLacks(list[1..], id, list[0].id);
        ConsUnique(list[0], RemoveId(list[1..], id));
      }
    }
  }

  /** The catalog page's toggle never creates a duplicate id. */
  lemma ToggledKeepsUnique(list: seq<Movie>, movie: Movie)
    requires UniqueIds(list)
    ensures UniqueIds(Toggled(list, movie))
  {
    if HasId(list, movie.id) {
      RemoveIdKeepsUnique(list, movie.id);
    } else {
      var r := list + [movie];
      forall i, j | 0 <= i < j < |r| ensures r[i].id != r[j].id {
        if j == |list| {
          assert r[i] == list[i];
        } else {
          assert r[i] == list[i] && r[j] == list[j];
        }
      }
    }
  }

  /** Adding a movie whose id is absent and toggling it again restores the original list. */
  lemma ToggleTwiceRestores(list: seq<Movie>, movie: Movie)
    requires !HasId(list, movie.id)
    ensures Toggled(Toggled(list, movie), movie) == list
  {
    RemoveIdConcat(list, [movie], movie.id);
    RemoveAbsentId(list, movie.id);
  }

  /**
   * An unchecked append (`[...list, movie]`) of a movie whose id is already
   * stored yields a list with a duplicate id, one more entry of that id.
   */
  lemma AppendCanDuplicate(list: seq<Movie>, movie: Movie)
    requires HasId(list, movie.id)
    ensures !UniqueIds(list + [movie])
    ensures CountId(list + [movie], movie.id) == CountId(list, movie.id) + 1
    ensures |list + [movie]| == |list| + 1
  {
    var i :| 0 <= i < |list| && list[i].id == movie.id;
    assert (list + [movie])[i].id == (list + [movie])[|list|].id;
    CountIdConcat(list, [movie], movie.id);
    assert [movie][1..] == [];
  }

  lemma {:induction false} CountIdConcat(a: seq<Movie>, b: seq<Movie>, id: int)
    ensures CountId(a + b, id) == CountId(a, id) + CountId(b, id)
  {
    if a == [] {
      assert a + b == b;
    } else {
      assert (a + b)[1..] == a[1..] + b;
      CountIdConcat(a[1..], b, id);
    }
  }
}
