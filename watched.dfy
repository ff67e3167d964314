/**
 * The watched-list store: an insertion-ordered sequence of rated movies,
 * keyed by `imdbID`, with append, delete-by-id and the summary averages.
 */
module WatchedStore {
  import opened Aggregate

  /** One entry of the watched list, as built by the details view. */
  datatype WatchedMovie = WatchedMovie(
    imdbID: string,
    title: string,
    year: string,
    poster: string,
    imdbRating: real,
    runtime: real,
    userRating: real)

  ghost predicate HasId(watched: seq<WatchedMovie>, id: string)
  {
    exists i | 0 <= i < |watched| :: watched[i].imdbID == id
  }

  /** No two entries share an `imdbID`. */
  ghost predicate UniqueIds(watched: seq<WatchedMovie>)
  {
    forall i, j | 0 <= i < j < |watched| :: watched[i].imdbID != watched[j].imdbID
  }

  /** `handleAddWatched`: the spread `[...watched, movie]`. */
  function Add(watched: seq<WatchedMovie>, movie: WatchedMovie): (r: seq<WatchedMovie>)
    ensures |r| == |watched| + 1
    ensures r[..|watched|] == watched
    ensures r[|watched|] == movie
  {
    watched + [movie]
  }

  /** `handleDeleteWatched`: the filter keeping every entry whose `imdbID` differs from `id`. */
  function Delete(watched: seq<WatchedMovie>, id: string): (r: seq<WatchedMovie>)
    ensures forall m {:trigger m in r} :: m in r <==> m in watched && m.imdbID != id
    ensures !HasId(r, id)
    ensures |r| <= |watched|
  {
    if |watched| == 0 then []
    else
      assert watched == [watched[0]] + watched[1..];
      (if watched[0].imdbID == id then [] else [watched[0]]) + Delete(watched[1..], id)
  }

  /** One step of the filter: the first entry is kept or dropped by its id. */
  lemma DeleteFirst(watched: seq<WatchedMovie>, id: string)
    requires |watched| > 0
    ensures Delete(watched, id) == (if watched[0].imdbID == id then [] else [watched[0]]) + Delete(watched[1..], id)
  {
  }

  /**
   * Delete is a filter: it maps a one-entry list to itself or to nothing and
   * distributes over concatenation, so the survivors keep their order.
   */
  lemma {:induction false} DeleteDistributes(a: seq<WatchedMovie>, b: seq<WatchedMovie>, id: string)
    ensures Delete(a + b, id) == Delete(a, id) + Delete(b, id)
    ensures |a| == 1 ==> Delete(a, id) == if a[0].imdbID == id then [] else a
  {
    if |a| == 0 {
      assert a + b == b;
    } else {
      var head := if a[0].imdbID == id then [] else [a[0]];
      assert (a + b)[0] == a[0] && (a + b)[1..] == a[1..] + b;
      DeleteFirst(a + b, id);
      DeleteFirst(a, id);
      DeleteDistributes(a[1..], b, id);
      assert |a| == 1 ==> a[1..] == [];
    }
  }

  /** Deleting an id that no entry carries leaves the list unchanged. */
  lemma {:induction false} DeleteAbsent(watched: seq<WatchedMovie>, id: string)
    requires !HasId(watched, id)
    ensures Delete(watched, id) == watched
  {
    if |watched| > 0 {
      assert watched[0].imdbID != id;
      assert !HasId(watched[1..], id) by {
        forall i | 0 <= i < |watched[1..]| ensures watched[1..][i].imdbID != id {
          assert watched[1..][i] == watched[i + 1];
        }
      }
      DeleteAbsent(watched[1..], id);
      assert watched == [watched[0]] + watched[1..];
    }
  }

  lemma DeleteIdempotent(watched: seq<WatchedMovie>, id: string)
    ensures Delete(Delete(watched, id), id) == Delete(watched, id)
  {
    DeleteAbsent(Delete(watched, id), id);
  }

  /** Adding an entry whose id was absent and then deleting that id restores the list. */
  lemma AddThenDelete(watched: seq<WatchedMovie>, movie: WatchedMovie)
    requires !HasId(watched, movie.imdbID)
    ensures Delete(Add(watched, movie), movie.imdbID) == watched
  {
    DeleteDistributes(watched, [movie], movie.imdbID);
    DeleteAbsent(watched, movie.imdbID);
  }

  lemma {:induction false} DeleteKeepsUnique(watched: seq<WatchedMovie>, id: string)
    requires UniqueIds(watched)
    ensures UniqueIds(Delete(watched, id))
  {
    if |watched| > 0 {
      var tail := watched[1..];
      assert UniqueIds(tail) by {
        forall i, j | 0 <= i < j < |tail| ensures tail[i].imdbID != tail[j].imdbID {
          assert tail[i] == watched[i + 1] && tail[j] == watched[j + 1];
        }
      }
      DeleteKeepsUnique(tail, id);
      var d := Delete(tail, id);
      if watched[0].imdbID != id {
        var r := [watched[0]] + d;
        assert Delete(watched, id) == r;
        forall j | 0 <= j < |d| ensures d[j].imdbID != watched[0].imdbID {
          assert d[j] in d;
          assert d[j] in tail;
          var k :| 0 <= k < |tail| && tail[k] == d[j];
          assert watched[k + 1] == d[j];
        }
        forall i, j | 0 <= i < j < |r| ensures r[i].imdbID != r[j].imdbID {
          if i == 0 {
            assert r[j] == d[j - 1];
          } else {
            assert r[i] == d[i - 1] && r[j] == d[j - 1];
          }
        }
      }
    }
  }

  lemma AddKeepsUnique(watched: seq<WatchedMovie>, movie: WatchedMovie)
    requires UniqueIds(watched)
    requires !HasId(watched, movie.imdbID)
    ensures UniqueIds(Add(watched, movie))
  {
  }

  /** With unique ids, deleting a present id removes exactly one entry. */
  lemma {:induction false} DeleteRemovesOne(watched: seq<WatchedMovie>, id: string)
    requires UniqueIds(watched) && HasId(watched, id)
    ensures |Delete(watched, id)| == |watched| - 1
  {
    var tail := watched[1..];
    assert watched == [watched[0]] + tail;
    if watched[0].imdbID == id {
      assert !HasId(tail, id) by {
        forall i | 0 <= i < |tail| ensures tail[i].imdbID != id {
          assert tail[i] == watched[i + 1];
        }
      }
      DeleteAbsent(tail, id);
    } else {
      var k :| 0 <= k < |watched| && watched[k].imdbID == id;
      assert tail[k - 1] == watched[k];
      assert UniqueIds(tail) by {
        forall i, j | 0 <= i < j < |tail| ensures tail[i].imdbID != tail[j].imdbID {
          assert tail[i] == watched[i + 1] && tail[j] == watched[j + 1];
        }
      }
      DeleteRemovesOne(tail, id);
    }
  }

  function ImdbRatings(watched: seq<WatchedMovie>): seq<real>
  {
    seq(|watched|, i requires 0 <= i < |watched| => watched[i].imdbRating)
  }

  function UserRatings(watched: seq<WatchedMovie>): seq<real>
  {
    seq(|watched|, i requires 0 <= i < |watched| => watched[i].userRating)
  }

  function Runtimes(watched: seq<WatchedMovie>): seq<real>
  {
    seq(|watched|, i requires 0 <= i < |watched| => watched[i].runtime)
  }

  /** What `WatchedSummary` displays: the count and three averages. */
  datatype Summary = Summary(count: nat, avgImdbRating: real, avgUserRating: real, avgRuntime: real)

  function WatchedSummary(watched: seq<WatchedMovie>): (r: Summary)
    ensures r.count == |watched|
    ensures |watched| == 0 ==> r == Summary(0, 0.0, 0.0, 0.0)
    ensures |watched| > 0 ==>
      && r.avgImdbRating == Sum(ImdbRatings(watched)) / |watched| as real
      && r.avgUserRating == Sum(UserRatings(watched)) / |watched| as real
      && r.avgRuntime == Sum(Runtimes(watched)) / |watched| as real
  {
    Summary(|watched|, Average(ImdbRatings(watched)), Average(UserRatings(watched)), Average(Runtimes(watched)))
  }

  lemma ImdbRatingsAdd(watched: seq<WatchedMovie>, movie: WatchedMovie)
    ensures ImdbRatings(Add(watched, movie)) == ImdbRatings(watched) + [movie.imdbRating]
  {
  }

  lemma UserRatingsAdd(watched: seq<WatchedMovie>, movie: WatchedMovie)
    ensures UserRatings(Add(watched, movie)) == UserRatings(watched) + [movie.userRating]
  {
  }

  lemma RuntimesAdd(watched: seq<WatchedMovie>, movie: WatchedMovie)
    ensures Runtimes(Add(watched, movie)) == Runtimes(watched) + [movie.runtime]
  {
  }

  lemma ImdbAverageAfterAdd(watched: seq<WatchedMovie>, movie: WatchedMovie)
    ensures (|watched| as real + 1.0) * WatchedSummary(Add(watched, movie)).avgImdbRating
         == |watched| as real * WatchedSummary(watched).avgImdbRating + movie.imdbRating
  {
    ImdbRatingsAdd(watched, movie);
    AverageAppend(ImdbRatings(watched), movie.imdbRating);
  }

  lemma UserAverageAfterAdd(watched: seq<WatchedMovie>, movie: WatchedMovie)
    ensures (|watched| as real + 1.0) * WatchedSummary(Add(watched, movie)).avgUserRating
         == |watched| as real * WatchedSummary(watched).avgUserRating + movie.userRating
  {
    UserRatingsAdd(watched, movie);
    AverageAppend(UserRatings(watched), movie.userRating);
  }

  lemma RuntimeAverageAfterAdd(watched: seq<WatchedMovie>, movie: WatchedMovie)
    ensures (|watched| as real + 1.0) * WatchedSummary(Add(watched, movie)).avgRuntime
         == |watched| as real * WatchedSummary(watched).avgRuntime + movie.runtime
  {
    RuntimesAdd(watched, movie);
    AverageAppend(Runtimes(watched), movie.runtime);
  }

  /**
   * The summary is always recomputed from the list: after an add, each
   * average times the new count is the old total plus the new entry's value.
   */
  lemma SummaryAfterAdd(watched: seq<WatchedMovie>, movie: WatchedMovie)
    ensures var n := |watched| as real;
      var before, after := WatchedSummary(watched), WatchedSummary(Add(watched, movie));
      && (n + 1.0) * after.avgImdbRating == n * before.avgImdbRating + movie.imdbRating
      && (n + 1.0) * after.avgUserRating == n * before.avgUserRating + movie.userRating
      && (n + 1.0) * after.avgRuntime == n * before.avgRuntime + movie.runtime
  {
    ImdbAverageAfterAdd(watched, movie);
    UserAverageAfterAdd(watched, movie);
    RuntimeAverageAfterAdd(watched, movie);
  }

  /** Two entries rated 8 and 6 by IMDb and 9 and 7 by the user, of 120 and 100 minutes, average 7, 8 and 110. */
  lemma SummaryExample()
    ensures var w := [WatchedMovie("tt1", "", "", "", 8.0, 120.0, 9.0),
                      WatchedMovie("tt2", "", "", "", 6.0, 100.0, 7.0)];
      WatchedSummary(w) == Summary(2, 7.0, 8.0, 110.0)
  {
  }
}
