/**
 * The recent-search list of the search bar (src/components/SearchBar.jsx):
 * a chosen term moves to the front with its older copies removed; the
 * submit and suggestion paths then keep the first five entries, the
 * history-click path keeps them all.
 */
module SearchHistory {

  /** The length the submit and suggestion paths cut the history to. */
  const HistoryCap := 5

  /** `items.slice(0, n)` */
  function Take<T>(items: seq<T>, n: nat): (r: seq<T>)
    ensures |r| == if |items| <= n then |items| else n
    ensures r == items[..|r|]
  {
    if |items| <= n then items else items[..n]
  }

  /** `history.filter(item => item !== term)` */
  function Without(history: seq<string>, term: string): (r: seq<string>)
    ensures term !in r
    ensures forall x :: x in r <==> x in history && x != term
    ensures |r| <= |history|
  {
    if history == [] then []
    else if history[0] == term then Without(history[1..], term)
    else [history[0]] + Without(history[1..], term)
  }

  /** `[term, ...history.filter(item => item !== term)]`, the history-click update. */
  function MoveToFront(history: seq<string>, term: string): (r: seq<string>)
    ensures |r| >= 1 && r[0] == term && term !in r[1..]
  {
    [term] + Without(history, term)
  }

  /** The submit and suggestion update: move to front, then keep the first five. */
  function Remember(history: seq<string>, term: string): (r: seq<string>)
    ensures 1 <= |r| <= HistoryCap && r[0] == term
  {
    Take(MoveToFront(history, term), HistoryCap)
  }

  /** The filter keeps the surviving entries in their order: it distributes over concatenation. */
  lemma {:induction false} WithoutConcat(a: seq<string>, b: seq<string>, term: string)
    ensures Without(a + b, term) == Without(a, term) + Without(b, term)
  {
    if a == [] {
      assert a + b == b;
    } else {
      assert (a + b)[1..] == a[1..] + b;
      WithoutConcat(a[1..], b, term);
    }
  }

  /**
   * Behind the chosen term, a capped update keeps the older entries other
   * than the term, newest first, as many as fit.
   */
  lemma RememberKeepsOlderEntries(history: seq<string>, term: string)
    ensures var r := Remember(history, term);
            var older := Without(history, term);
            r[1..] == older[..|r| - 1] && |r| == if |older| < HistoryCap then |older| + 1 else HistoryCap
  {
  }

  /** No entry occurs twice. */
  predicate Distinct(items: seq<string>) {
    forall i, j :: 0 <= i < j < |items| ==> items[i] != items[j]
  }

  /** The chosen term occurs exactly once in a capped update, at the front. */
  lemma RememberHoldsTermOnce(history: seq<string>, term: string)
    ensures var r := Remember(history, term);
            |r| <= HistoryCap && r[0] == term && multiset(r)[term] == 1
  {
    var m := MoveToFront(history, term);
    var r := Remember(history, term);
    assert r == [term] + r[1..];
    assert r[1..] == m[1..|r|];
    assert term !in r[1..];
    assert multiset(r) == multiset{term} + multiset(r[1..]);
  }

  /** Removing one term keeps a duplicate-free list duplicate-free, in the same relative order. */
  lemma {:induction false} WithoutKeepsDistinct(history: seq<string>, term: string)
    requires Distinct(history)
    ensures Distinct(Without(history, term))
  {
    if history != [] {
      var rest := history[1..];
      assert Distinct(rest) by {
        forall i, j | 0 <= i < j < |rest| ensures rest[i] != rest[j] {
          assert rest[i] == history[i + 1] && rest[j] == history[j + 1];
        }
      }
      assert history[0] !in rest by {
        forall k | 0 <= k < |rest| ensures rest[k] != history[0] {
          assert rest[k] == history[k + 1];
        }
      }
      WithoutKeepsDistinct(rest, term);
      if history[0] != term {
        var w := Without(rest, term);
        var r := [history[0]] + w;
        forall i, j | 0 <= i < j < |r| ensures r[i] != r[j] {
          assert r[j] == w[j - 1];
          if i > 0 {
            assert r[i] == w[i - 1];
          }
        }
      }
    }
  }

  /** Moving a term to the front keeps a duplicate-free history duplicate-free. */
  lemma MoveToFrontKeepsDistinct(history: seq<string>, term: string)
    requires Distinct(history)
    ensures Distinct(MoveToFront(history, term))
  {
    WithoutKeepsDistinct(history, term);
    var w := Without(history, term);
    var r := [term] + w;
    forall i, j | 0 <= i < j < |r| ensures r[i] != r[j] {
      assert r[j] == w[j - 1];
      if i > 0 {
        assert r[i] == w[i - 1];
      }
    }
  }

  /** A capped update keeps a duplicate-free history duplicate-free. */
  lemma RememberKeepsDistinct(history: seq<string>, term: string)
    requires Distinct(history)
    ensures Distinct(Remember(history, term))
  {
    MoveToFrontKeepsDistinct(history, term);
    var m := MoveToFront(history, term);
    var r := Remember(history, term);
    forall i, j | 0 <= i < j < |r| ensures r[i] != r[j] {
      assert r[i] == m[i] && r[j] == m[j];
    }
  }

  /** Removing a term that occurs once drops exactly that one entry. */
  lemma {:induction false} WithoutOnce(history: seq<string>, term: string)
    requires multiset(history)[term] == 1
    ensures multiset(Without(history, term)) == multiset(history) - multiset{term}
  {
    assert history != [];
    var rest := history[1..];
    assert history == [history[0]] + rest;
    if history[0] == term {
      assert multiset(rest)[term] == 0;
      WithoutAbsent(rest, term);
    } else {
      WithoutOnce(rest, term);
    }
  }

  /** Removing a term that does not occur changes nothing. */
  lemma {:induction false} WithoutAbsent(history: seq<string>, term: string)
    requires term !in history
    ensures Without(history, term) == history
  {
    if history != [] {
      assert history == [history[0]] + history[1..];
      WithoutAbsent(history[1..], term);
    }
  }

  /**
   * A history click moves an entry that is already present, once, to the
   * front: the result is a permutation of the history, of the same length.
   */
  lemma HistoryClickPermutes(history: seq<string>, term: string)
    requires Distinct(history) && term in history
    ensures multiset(MoveToFront(history, term)) == multiset(history)
    ensures |MoveToFront(history, term)| == |history|
  {
    var i :| 0 <= i < |history| && history[i] == term;
    assert multiset(history)[term] == 1 by {
      DistinctCount(history, i);
    }
    WithoutOnce(history, term);
    assert multiset(MoveToFront(history, term)) == multiset{term} + multiset(Without(history, term));
    assert |multiset(MoveToFront(history, term))| == |multiset(history)|;
  }

  /** In a duplicate-free list the entry at `i` occurs once. */
  lemma {:induction false} DistinctCount(items: seq<string>, i: nat)
    requires Distinct(items) && i < |items|
    ensures multiset(items)[items[i]] == 1
  {
    var rest := items[1..];
    assert items == [items[0]] + rest;
    assert Distinct(rest) by {
      forall a, b | 0 <= a < b < |rest| ensures rest[a] != rest[b] {
        assert rest[a] == items[a + 1] && rest[b] == items[b + 1];
      }
    }
    assert items[0] !in rest by {
      forall k | 0 <= k < |rest| ensures rest[k] != items[0] {
        assert rest[k] == items[k + 1];
      }
    }
    if i == 0 {
      assert multiset(rest)[items[0]] == 0;
    } else {
      assert items[i] == rest[i - 1];
      DistinctCount(rest, i - 1);
    }
  }
}
