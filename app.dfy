/**
 * The `App` component: its state, the events that change it (a typed
 * query, a search request completing, a click on a movie, the back button
 * or Escape, the add button of the details view, a delete button), and a
 * class whose fields are the component's state with one method per event.
 */
module App {
  import opened Wrappers
  import opened WatchedStore
  import opened MovieDetails
  import opened Selection
  import opened Search

  datatype AppState = AppState(search: SearchState, watched: seq<WatchedMovie>, selectedId: Option<string>)

  datatype Event =
    | SetQuery(q: string)
    | SearchCompleted(gen: nat, outcome: Outcome)
    | SelectMovie(id: string)
    | CloseMovie
    | AddFromDetails(detail: MovieDetail, userRating: real, toNumber: string -> real)
    | DeleteWatched(id: string)

  /** After the first render and the mount run of the effect (an empty query). */
  function Init(): (s: AppState)
    ensures s.search.query == "" && s.search.movies == [] && s.search.error == ""
    ensures !s.search.isLoading && s.watched == [] && s.selectedId.None?
  {
    AppState(Initial(), [], None)
  }

  /**
   * The add button exists only while the details view is open, which needs
   * a truthy selected id, and only under the gate of `CanAdd`.
   */
  function AddButtonShown(s: AppState, userRating: real): (r: bool)
    ensures r <==> && s.selectedId.Some? && s.selectedId.value != ""
                   && !HasId(s.watched, s.selectedId.value) && userRating > 0.0
  {
    s.selectedId.Some? && s.selectedId.value != "" && CanAdd(s.watched, s.selectedId.value, userRating)
  }

  /**
   * One event. Typing a new query of at least three characters closes the
   * details view; a short or unchanged query leaves it open. An add through
   * the shown button appends the entry built from the details and closes
   * the view; an add the gate refuses, or whose details lack a runtime,
   * changes nothing. Search events leave the watched list alone, and the
   * list and selection events leave the search alone.
   */
  function Step(s: AppState, e: Event): (r: AppState)
    ensures e.SetQuery? && e.q != s.search.query && |e.q| >= MinQueryLength ==>
      r.selectedId.None? && r.search.isLoading && r.search.query == e.q
    ensures e.SetQuery? && (e.q == s.search.query || |e.q| < MinQueryLength) ==>
      r.selectedId == s.selectedId
    ensures e.SetQuery? || e.SearchCompleted? ==> r.watched == s.watched
    ensures e.SearchCompleted? ==> r.selectedId == s.selectedId
    ensures !e.SetQuery? && !e.SearchCompleted? ==> r.search == s.search
    ensures e.SelectMovie? || e.CloseMovie? ==> r.watched == s.watched
    ensures e.CloseMovie? ==> r.selectedId.None?
    ensures e.SelectMovie? ==> (r.selectedId.None? <==> s.selectedId == Some(e.id))
    ensures e.AddFromDetails? && AddButtonShown(s, e.userRating) && e.detail.runtime.Some? ==>
      && r.watched == s.watched + [NewWatchedMovie(s.selectedId.value, e.detail, e.userRating, e.toNumber).value]
      && r.selectedId.None?
    ensures e.AddFromDetails? && !(AddButtonShown(s, e.userRating) && e.detail.runtime.Some?) ==>
      r.watched == s.watched && r.selectedId == s.selectedId
    ensures e.DeleteWatched? ==>
      r.watched == Delete(s.watched, e.id) && r.selectedId == s.selectedId
  {
    match e
    case SetQuery(q) =>
      var (search, started) := QueryChanged(s.search, q);
      s.(search := search, selectedId := if started then Close(s.selectedId) else s.selectedId)
    case SearchCompleted(gen, outcome) =>
      s.(search := Completed(s.search, gen, outcome))
    case SelectMovie(id) =>
      s.(selectedId := Toggle(s.selectedId, id))
    case CloseMovie =>
      s.(selectedId := Close(s.selectedId))
    case AddFromDetails(detail, userRating, toNumber) =>
      if AddButtonShown(s, userRating) then
        match NewWatchedMovie(s.selectedId.value, detail, userRating, toNumber)
        case None => s  // `handleAdd` threw before adding or closing
        case Some(entry) => s.(watched := Add(s.watched, entry), selectedId := Close(s.selectedId))
      else s
    case DeleteWatched(id) =>
      s.(watched := Delete(s.watched, id))
  }

  /** The events of a trace, one after the other, from the first. */
  function Run(s: AppState, trace: seq<Event>): (r: AppState)
    ensures |trace| == 1 ==> r == Step(s, trace[0])
    decreases |trace|
  {
    if |trace| == 0 then s else Run(Step(s, trace[0]), trace[1..])
  }

  /** Running two traces in turn is running their concatenation. */
  lemma {:induction false} RunConcat(s: AppState, a: seq<Event>, b: seq<Event>)
    ensures Run(s, a + b) == Run(Run(s, a), b)
    decreases |a|
  {
    if |a| == 0 {
      assert a + b == b;
    } else {
      assert (a + b)[0] == a[0];
      assert (a + b)[1..] == a[1..] + b;
      RunConcat(Step(s, a[0]), a[1..], b);
    }
  }

  /** A trace of search and selection events only never changes the watched list. */
  lemma {:induction false} RunKeepsWatched(s: AppState, trace: seq<Event>)
    requires forall i | 0 <= i < |trace| :: !trace[i].AddFromDetails? && !trace[i].DeleteWatched?
    ensures Run(s, trace).watched == s.watched
    decreases |trace|
  {
    if |trace| > 0 {
      RunKeepsWatched(Step(s, trace[0]), trace[1..]);
    }
  }

  /** What every reachable state satisfies: ids are unique and the search state is valid. */
  ghost predicate Inv(s: AppState)
  {
    UniqueIds(s.watched) && Valid(s.search)
  }

  lemma StepKeepsInv(s: AppState, e: Event)
    requires Inv(s)
    ensures Inv(Step(s, e))
  {
    match e
    case AddFromDetails(detail, userRating, toNumber) =>
      if AddButtonShown(s, userRating) {
        GuardedAddKeepsUnique(s.watched, s.selectedId.value, detail, userRating, toNumber);
      }
    case DeleteWatched(id) =>
      DeleteKeepsUnique(s.watched, id);
    case _ =>
  }

  lemma {:induction false} RunKeepsInv(s: AppState, trace: seq<Event>)
    requires Inv(s)
    ensures Inv(Run(s, trace))
    decreases |trace|
  {
    if |trace| > 0 {
      StepKeepsInv(s, trace[0]);
      RunKeepsInv(Step(s, trace[0]), trace[1..]);
    }
  }

  /**
   * In every state reachable from the first render, no two watched entries
   * share an id, and once no request is in flight loading has ended.
   */
  lemma Reachable(trace: seq<Event>)
    ensures var s := Run(Init(), trace);
      UniqueIds(s.watched) && (s.search.pending == {} ==> !s.search.isLoading)
  {
    RunKeepsInv(Init(), trace);
  }

  /** A completion of a request that a later query change has aborted. */
  predicate IsStale(s: AppState, e: Event)
  {
    e.SearchCompleted? && e.gen != s.search.generation
  }

  /** The trace with every stale completion removed, judged against the states the trace goes through. */
  function DropStale(s: AppState, trace: seq<Event>): seq<Event>
    decreases |trace|
  {
    if |trace| == 0 then []
    else
      var rest := DropStale(Step(s, trace[0]), trace[1..]);
      if IsStale(s, trace[0]) then rest else [trace[0]] + rest
  }

  /** Two states that agree on everything except the loading flag and the in-flight set. */
  predicate Agree(a: AppState, b: AppState)
  {
    && a.search.query == b.search.query
    && a.search.movies == b.search.movies
    && a.search.error == b.search.error
    && a.search.generation == b.search.generation
    && a.watched == b.watched
    && a.selectedId == b.selectedId
  }

  /** They also agree on which requests of the current run or later are in flight. */
  ghost predicate Related(a: AppState, b: AppState)
  {
    Agree(a, b) && forall g | g >= a.search.generation :: g in a.search.pending <==> g in b.search.pending
  }

  lemma StaleStepRelated(a: AppState, b: AppState, e: Event)
    requires Valid(a.search) && Related(a, b) && IsStale(a, e)
    ensures Related(Step(a, e), b)
  {
  }

  lemma FreshStepRelated(a: AppState, b: AppState, e: Event)
    requires Related(a, b) && !IsStale(a, e)
    ensures Related(Step(a, e), Step(b, e))
  {
  }

  lemma {:induction false} RelatedRuns(a: AppState, b: AppState, trace: seq<Event>)
    requires Valid(a.search) && Related(a, b)
    ensures Agree(Run(a, trace), Run(b, DropStale(a, trace)))
    decreases |trace|
  {
    if |trace| > 0 {
      var e := trace[0];
      var a' := Step(a, e);
      assert Valid(a'.search) by {
        if e.SetQuery? {
          assert Valid(QueryChanged(a.search, e.q).0);
        }
      }
      if IsStale(a, e) {
        StaleStepRelated(a, b, e);
        RelatedRuns(a', b, trace[1..]);
      } else {
        FreshStepRelated(a, b, e);
        var rest := DropStale(a', trace[1..]);
        assert ([e] + rest)[0] == e && ([e] + rest)[1..] == rest;
        RelatedRuns(a', Step(b, e), trace[1..]);
      }
    }
  }

  /**
   * Stale requests cannot write results: dropping every completion of an
   * aborted request from any trace changes nothing but the loading flag
   * (and the in-flight set): not the query, the list, the error, the
   * selection or the watched list.
   */
  lemma StaleCompletionsOnlyClearLoading(s: AppState, trace: seq<Event>)
    requires Inv(s)
    ensures Agree(Run(s, trace), Run(s, DropStale(s, trace)))
  {
    RelatedRuns(s, s, trace);
  }

  /**
   * The scenario of a short query, a search with two hits and a search the
   * catalog does not know.
   */
  lemma SearchScenario(hit1: Movie, hit2: Movie)
    ensures var s1 := Run(Init(), [SetQuery("Ti")]);
      s1.search.movies == [] && s1.search.error == "" && s1.search.pending == {}
    ensures var s2 := Run(Init(), [SetQuery("Ti"), SetQuery("Titanic")]);
      s2.search.isLoading && s2.search.pending == {2}
    ensures var s3 := Run(Init(), [SetQuery("Ti"), SetQuery("Titanic"),
                                   SearchCompleted(2, Responded(true, Body("True", [hit1, hit2])))]);
      s3.search.movies == [hit1, hit2] && s3.search.error == "" && !s3.search.isLoading
    ensures var s4 := Run(Init(), [SetQuery("Ti"), SetQuery("Titanic"),
                                   SearchCompleted(2, Responded(true, Body("True", [hit1, hit2]))),
                                   SetQuery("zzzznotreal"),
                                   SearchCompleted(3, Responded(true, Body("False", [])))]);
      s4.search.movies == [hit1, hit2] && s4.search.error == NotFoundMessage && !s4.search.isLoading
  {
    var e1 := SetQuery("Ti");
    var e2 := SetQuery("Titanic");
    var e3 := SearchCompleted(2, Responded(true, Body("True", [hit1, hit2])));
    var e4 := SetQuery("zzzznotreal");
    var e5 := SearchCompleted(3, Responded(true, Body("False", [])));
    assert "Ti" != "" && "Titanic" != "Ti" && "zzzznotreal" != "Titanic";
    var a1 := Step(Init(), e1);
    assert a1.search == SearchState("Ti", [], "", false, 1, {});
    var a2 := Step(a1, e2);
    assert a2.search == SearchState("Titanic", [], "", true, 2, {2});
    var a3 := Step(a2, e3);
    assert a3.search == SearchState("Titanic", [hit1, hit2], "", false, 2, {});
    var a4 := Step(a3, e4);
    assert a4.search == SearchState("zzzznotreal", [hit1, hit2], "", true, 3, {3});
    var a5 := Step(a4, e5);
    assert a5.search == SearchState("zzzznotreal", [hit1, hit2], NotFoundMessage, false, 3, {});
    assert Run(Init(), [e1]) == a1;
    RunConcat(Init(), [e1], [e2]);
    assert [e1] + [e2] == [e1, e2];
    RunConcat(Init(), [e1, e2], [e3]);
    assert [e1, e2] + [e3] == [e1, e2, e3];
    RunConcat(Init(), [e1, e2, e3], [e4, e5]);
    RunConcat(a3, [e4], [e5]);
    assert [e4] + [e5] == [e4, e5];
    assert [e1, e2, e3] + [e4, e5] == [e1, e2, e3, e4, e5];
  }

  /** The component: its `useState` cells, plus the effect runs and in-flight requests. */
  class App {
    var query: string
    var movies: seq<Movie>
    var watched: seq<WatchedMovie>
    var isLoading: bool
    var error: string
    var selectedId: Option<string>
    var generation: nat
    var pending: set<nat>

    function State(): AppState
      reads this
    {
      AppState(SearchState(query, movies, error, isLoading, generation, pending), watched, selectedId)
    }

    /** The first render and the mount run of the search effect. */
    constructor ()
      ensures State() == Init()
    {
      query, movies, watched := "", [], [];
      isLoading, error, selectedId := false, "", None;
      generation, pending := 0, {};
      // the mount run of the effect sees a query shorter than three characters
      movies := [];
      error := "";
    }

    /** `setQuery` from the search box, followed by the `[query]` effect when the value changed. */
    method SetQuery(q: string)
      modifies this
      ensures State() == Step(old(State()), Event.SetQuery(q))
    {
      if q == query {
        return;
      }
      query := q;
      // a new run of the effect; the previous run's cleanup, if it issued a request, aborts it
      generation := generation + 1;
      if |q| < MinQueryLength {
        movies := [];
        error := "";
        return;
      }
      selectedId := None;
      isLoading := true;
      error := "";
      pending := pending + {generation};
    }

    /** The request issued under `gen` completes with `outcome`, unless it was aborted. */
    method SearchCompleted(gen: nat, outcome: Outcome)
      requires gen in pending
      modifies this
      ensures State() == Step(old(State()), Event.SearchCompleted(gen, outcome))
    {
      if gen == generation {
        match outcome
        case Responded(ok, body) =>
          if !ok {
            error := NotOkMessage;
          } else if body.response == "False" {
            error := NotFoundMessage;
          } else {
            movies := body.search;
            error := "";
          }
        case Rejected(message) =>
          error := message;
      }
      // otherwise the AbortError is swallowed; `finally` runs in every case
      isLoading := false;
      pending := pending - {gen};
    }

    /** `handelSelectMovie`. */
    method SelectMovie(id: string)
      modifies this
      ensures State() == Step(old(State()), Event.SelectMovie(id))
    {
      selectedId := if selectedId == Some(id) then None else Some(id);
    }

    /** `handleCloseMovie`: the back button or the Escape key. */
    method CloseMovie()
      modifies this
      ensures State() == Step(old(State()), Event.CloseMovie)
    {
      selectedId := None;
    }

    /**
     * A click on the add button of the details view: `handleAdd` appends the
     * new entry through `handleAddWatched` and closes the view. Returns
     * whether an entry was added: the button was shown and the detail had a
     * runtime text, without which `handleAdd` throws before any change.
     */
    method AddFromDetails(detail: MovieDetail, userRating: real, toNumber: string -> real) returns (added: bool)
      modifies this
      ensures added == (AddButtonShown(old(State()), userRating) && detail.runtime.Some?)
      ensures State() == Step(old(State()), Event.AddFromDetails(detail, userRating, toNumber))
    {
      var shown := selectedId.Some? && selectedId.value != "" && CanAdd(watched, selectedId.value, userRating);
      added := false;
      if shown {
        var entry := NewWatchedMovie(selectedId.value, detail, userRating, toNumber);
        if entry.Some? {
          watched := watched + [entry.value];
          selectedId := None;
          added := true;
        }
      }
    }

    /** `handleDeleteWatched`. */
    method DeleteWatched(id: string)
      modifies this
      ensures State() == Step(old(State()), Event.DeleteWatched(id))
    {
      watched := Delete(watched, id);
    }
  }
}
