/**
 * The search coordinator: the `[query]` effect and its `fetchMovies`
 * request. Each run of the effect owns one abort controller; the model
 * numbers the runs with a generation counter, so a request issued under
 * generation g has been aborted exactly when the counter has moved past g.
 * The network is an abstract outcome handed in at completion time.
 */
module Search {

  /** One search hit as the catalog lists it. */
  datatype Movie = Movie(imdbID: string, title: string, year: string, poster: string)

  /** The parsed JSON body: its `Response` field and its `Search` array. */
  datatype Body = Body(response: string, search: seq<Movie>)

  /**
   * How a request that was not aborted ends: a response (with `res.ok` and
   * its body), or a rejection of `fetch` or `res.json()` with a message.
   */
  datatype Outcome = Responded(ok: bool, body: Body) | Rejected(message: string)

  /**
   * The App state the coordinator owns, plus the environment: the current
   * effect run `generation` and the generations whose request is in flight.
   */
  datatype SearchState = SearchState(
    query: string,
    movies: seq<Movie>,
    error: string,
    isLoading: bool,
    generation: nat,
    pending: set<nat>)

  const MinQueryLength: nat := 3
  const NotOkMessage: string := "Something went with fetching movies!"
  const NotFoundMessage: string := "Oops! Movie Not Found!"

  /** Every in-flight request was issued by a run so far, and loading never outlives them all. */
  ghost predicate Valid(s: SearchState)
  {
    && (forall g | g in s.pending :: g <= s.generation)
    && (s.isLoading ==> s.pending != {})
  }

  function Initial(): (s: SearchState)
    ensures Valid(s) && s.query == "" && s.movies == [] && s.error == "" && !s.isLoading && s.pending == {}
  {
    SearchState("", [], "", false, 0, {})
  }

  /**
   * A new query value. React runs the effect only when the value actually
   * changes, and the new run starts under the next generation. If the
   * previous run issued a request, its cleanup aborts that request; a run
   * for a short query returns before installing a cleanup and issues no
   * request, so moving past its generation aborts nothing. A query shorter than three
   * characters only clears the list and the error. A longer one sets
   * loading, clears the error and issues a request; the second component
   * of the result says that it also closes the selection.
   */
  function QueryChanged(s: SearchState, q: string): (r: (SearchState, bool))
    ensures q == s.query ==> r == (s, false)
    ensures q != s.query ==> r.0.query == q && r.0.generation == s.generation + 1
    ensures q != s.query && |q| < MinQueryLength ==>
      && r.0 == s.(query := q, generation := s.generation + 1, movies := [], error := "")
      && !r.1
    ensures q != s.query && |q| >= MinQueryLength ==>
      && r.0.isLoading && r.0.error == "" && r.0.movies == s.movies
      && r.0.pending == s.pending + {s.generation + 1}
      && r.1
    ensures Valid(s) ==> Valid(r.0)
  {
    if q == s.query then (s, false)
    else
      var run := s.(query := q, generation := s.generation + 1);
      if |q| < MinQueryLength then (run.(movies := [], error := ""), false)
      else (run.(isLoading := true, error := "", pending := s.pending + {run.generation}), true)
  }

  /** The `try`/`catch` of a request that was not aborted: what it writes to the list and the error. */
  function Settle(s: SearchState, o: Outcome): (r: SearchState)
    ensures r == s.(movies := r.movies, error := r.error)
    ensures o.Responded? && o.ok && o.body.response != "False" ==> r.movies == o.body.search && r.error == ""
    ensures o.Responded? && !o.ok ==> r.movies == s.movies && r.error == NotOkMessage
    ensures o.Responded? && o.ok && o.body.response == "False" ==> r.movies == s.movies && r.error == NotFoundMessage
    ensures o.Rejected? ==> r.movies == s.movies && r.error == o.message
  {
    match o
    case Responded(ok, body) =>
      if !ok then s.(error := NotOkMessage)
      else if body.response == "False" then s.(error := NotFoundMessage)
      else s.(movies := body.search, error := "")
    case Rejected(message) => s.(error := message)
  }

  /**
   * The request of generation `gen` completes. If a later run has aborted
   * it, the `AbortError` is swallowed and only `finally` runs; otherwise
   * the outcome is settled. Either way loading ends.
   */
  function Completed(s: SearchState, gen: nat, o: Outcome): (r: SearchState)
    ensures gen !in s.pending ==> r == s
    ensures gen in s.pending && gen != s.generation ==>
      r == s.(isLoading := false, pending := s.pending - {gen})
    ensures gen in s.pending && gen == s.generation ==>
      r == Settle(s, o).(isLoading := false, pending := s.pending - {gen})
    ensures r.query == s.query && r.generation == s.generation
    ensures Valid(s) ==> Valid(r)
  {
    if gen !in s.pending then s
    else
      var settled := if gen == s.generation then Settle(s, o) else s;
      settled.(isLoading := false, pending := s.pending - {gen})
  }

  /**
   * Last query wins: two searches issued back to back end in the same state
   * whichever response arrives first, and that state is the one the second
   * search's outcome gives; loading has ended and nothing is in flight.
   */
  lemma ArrivalOrderIrrelevant(s: SearchState, q1: string, q2: string, o1: Outcome, o2: Outcome)
    requires Valid(s)
    requires q1 != s.query && q2 != q1
    requires |q1| >= MinQueryLength && |q2| >= MinQueryLength
    ensures var s1 := QueryChanged(s, q1).0;
      var s2 := QueryChanged(s1, q2).0;
      var g1, g2 := s1.generation, s2.generation;
      var newestFirst := Completed(Completed(s2, g2, o2), g1, o1);
      var oldestFirst := Completed(Completed(s2, g1, o1), g2, o2);
      && newestFirst == oldestFirst
      && newestFirst.movies == Settle(s2, o2).movies
      && newestFirst.error == Settle(s2, o2).error
      && !newestFirst.isLoading
      && newestFirst.pending == s.pending
  {
  }

  /**
   * Source behaviour: when a superseded request completes, its `finally`
   * clears loading although the newer request is still in flight.
   */
  lemma StaleFinallyClearsLoading(s: SearchState, q1: string, q2: string, o1: Outcome)
    requires Valid(s)
    requires q1 != s.query && q2 != q1
    requires |q1| >= MinQueryLength && |q2| >= MinQueryLength
    ensures var s1 := QueryChanged(s, q1).0;
      var s2 := QueryChanged(s1, q2).0;
      var s3 := Completed(s2, s1.generation, o1);
      !s3.isLoading && s3.generation in s3.pending && s3.movies == s2.movies && s3.error == ""
  {
  }
}
