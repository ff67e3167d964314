/**
 * The logic of the details view: whether the selected movie is already in
 * the watched list, the rating given to it, and building the entry that
 * the add button appends.
 */
module MovieDetails {
  import opened Wrappers
  import opened WatchedStore

  /**
   * The raw fields of a loaded detail record, as the catalog returns them.
   * `runtime` is absent when the lookup failed and the body has no `Runtime`.
   */
  datatype MovieDetail = MovieDetail(title: string, year: string, poster: string, runtime: Option<string>, imdbRating: string)

  function Ids(watched: seq<WatchedMovie>): seq<string>
  {
    seq(|watched|, i requires 0 <= i < |watched| => watched[i].imdbID)
  }

  /** `isWatched`: the selected id is among the ids of the watched list. */
  function IsWatched(watched: seq<WatchedMovie>, selectId: string): (r: bool)
    ensures r <==> HasId(watched, selectId)
  {
    assert forall i | 0 <= i < |watched| :: Ids(watched)[i] == watched[i].imdbID;
    selectId in Ids(watched)
  }

  /** `Array.prototype.find` on the id: the index of the first entry carrying it. */
  function FindIndex(watched: seq<WatchedMovie>, id: string): (r: Option<nat>)
    ensures r.None? <==> !HasId(watched, id)
    ensures r.Some? ==> r.value < |watched| && watched[r.value].imdbID == id
    ensures r.Some? ==> forall j | 0 <= j < r.value :: watched[j].imdbID != id
  {
    if |watched| == 0 then None
    else if watched[0].imdbID == id then Some(0)
    else
      match FindIndex(watched[1..], id)
      case None =>
        assert forall i | 1 <= i < |watched| :: watched[i] == watched[1..][i - 1];
        None
      case Some(k) => Some(k + 1)
  }

  /** `watchedUserRating`: the rating of the first entry with the selected id, or undefined. */
  function WatchedUserRating(watched: seq<WatchedMovie>, selectId: string): (r: Option<real>)
    ensures r.None? <==> !HasId(watched, selectId)
    ensures r.Some? ==> exists i | 0 <= i < |watched| ::
      && watched[i].imdbID == selectId
      && r.value == watched[i].userRating
      && forall j | 0 <= j < i :: watched[j].imdbID != selectId
  {
    match FindIndex(watched, selectId)
    case None => None
    case Some(i) => Some(watched[i].userRating)
  }

  /** With unique ids the rating shown is the one of the only matching entry. */
  lemma RatingOfUniqueEntry(watched: seq<WatchedMovie>, i: nat)
    requires UniqueIds(watched)
    requires i < |watched|
    ensures WatchedUserRating(watched, watched[i].imdbID) == Some(watched[i].userRating)
  {
  }

  /** `runtime.split(" ").at(0)`: the text before the first space, or the whole text. */
  function FirstWord(s: string): (r: string)
    ensures r <= s
    ensures ' ' !in r
    ensures |r| < |s| ==> s[|r|] == ' '
  {
    if |s| == 0 || s[0] == ' ' then []
    else [s[0]] + FirstWord(s[1..])
  }

  lemma FirstWordExample()
    ensures FirstWord("142 min") == "142"
  {
  }

  /** The add button is shown only for a movie not yet watched with a positive rating. */
  function CanAdd(watched: seq<WatchedMovie>, selectId: string, userRating: real): (r: bool)
    ensures r <==> !HasId(watched, selectId) && userRating > 0.0
  {
    !IsWatched(watched, selectId) && userRating > 0.0
  }

  /**
   * `handleAdd`'s new entry: the id is the selected id, and the two numeric
   * fields go through the number coercion `toNumber`, the runtime on its
   * first word only. Without a runtime text, `runtime.split` throws before
   * anything is added: no entry.
   */
  function NewWatchedMovie(selectId: string, detail: MovieDetail, userRating: real, toNumber: string -> real): (r: Option<WatchedMovie>)
    ensures r.None? <==> detail.runtime.None?
    ensures r.Some? ==> r.value.imdbID == selectId && r.value.userRating == userRating
    ensures r.Some? ==> r.value.title == detail.title && r.value.year == detail.year && r.value.poster == detail.poster
    ensures r.Some? ==> r.value.imdbRating == toNumber(detail.imdbRating)
    ensures r.Some? ==> r.value.runtime == toNumber(FirstWord(detail.runtime.value))
  {
    match detail.runtime
    case None => None
    case Some(runtime) =>
      Some(WatchedMovie(selectId, detail.title, detail.year, detail.poster,
                        toNumber(detail.imdbRating), toNumber(FirstWord(runtime)), userRating))
  }

  /**
   * An add through the button keeps ids unique: the entry carries the
   * selected id, which the gate checked was absent.
   */
  lemma GuardedAddKeepsUnique(watched: seq<WatchedMovie>, selectId: string, detail: MovieDetail,
                              userRating: real, toNumber: string -> real)
    requires UniqueIds(watched)
    requires CanAdd(watched, selectId, userRating)
    ensures var entry := NewWatchedMovie(selectId, detail, userRating, toNumber);
      entry.Some? ==>
        var after := Add(watched, entry.value);
        UniqueIds(after) && IsWatched(after, selectId) && |after| == |watched| + 1
  {
  }
}
