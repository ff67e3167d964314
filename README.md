# RateIt state model

A Dafny model of the state behind the RateIt movie client (`src/App.jsx`): a
search box queries a movie catalog, a click opens a movie's details, the user
rates it and adds it to a personal watched list, whose summary shows three
averages. The model covers the four pieces of logic behind the UI:

- **Aggregate calculator** (`aggregate.dfy`, module `Aggregate`): `average` as the
  fold `acc + cur / length` from 0, over exact reals, proved equal to sum over length.
- **Watched-list store** (`watched.dfy`, module `WatchedStore`): append,
  delete-by-id as a filter, and the `WatchedSummary` averages.
- **Details view logic** (`details.dfy`, module `MovieDetails`): `isWatched`, the
  rating found for the selected id, the runtime's first word, the add-button gate
  and the entry `handleAdd` builds.
- **Selection controller** (`selection.dfy`, module `Selection`): toggle and close.
- **Search coordinator** (`search.dfy`, module `Search`): the `[query]` effect
  and its request as transitions on a `SearchState` value. Each run of the effect
  owns an abort controller. The model numbers those runs with a generation counter
  (`generation`). A request issued under generation g has been aborted exactly
  when the counter has moved past g. The network is an abstract `Outcome`
  passed in when a request completes.
- **The component** (`app.dfy`, module `App`): `AppState`, the events the user and
  the network cause, `Step` and `Run` over event traces. The class `App` holds the
  `useState` cells as fields and has one method per event, each proved to change
  the state exactly as `Step` says. Lemmas over traces state the invariants of
  every reachable state. They also show that completions of aborted requests
  change nothing but the loading flag (and the in-flight set).

Modelling choices:

- The JavaScript `Number()` coercion of the catalog's rating and runtime text is
  the parameter `toNumber`, carried by the add event.
- The rating widget's value is a real. Its initial `""` is represented by `0.0`,
  since `"" > 0` and `0 > 0` are both false.
- A click on the add button is modelled only when the button is rendered, apart
  from the details view's own loading flag, which is not modelled. The button is
  rendered when the details view is open (truthy `selectedId`), the movie is not
  watched and the rating is positive. Any other add event leaves the state unchanged.
- A detail record whose body has no `Runtime` has `runtime == None`. Then
  `runtime.split` throws inside `handleAdd` before anything is added or closed,
  so the add event leaves the state unchanged.
- React skips the effect when `setQuery` receives the current value, so such an
  event changes nothing.
- Every real change of the query starts a new run of the effect and bumps the
  generation. If the previous run issued a request, its cleanup aborts it.
  A short-query run returns before installing a cleanup and issues no request,
  so moving past its generation aborts nothing.

Behaviour of the code worth knowing:

- Delete is a filter and removes every entry with the id. With unique ids this
  removes the one entry (`DeleteRemovesOne`).
- A not-ok response and a `Response` of "False" both end as a message in the
  same `error` cell.
- An aborted request's `finally` clears `isLoading` while a newer request may be
  in flight (`StaleFinallyClearsLoading`). The loader then disappears and the
  old list shows again until the newer request completes.
- The detail fetch has no abort, so stale detail responses are not excluded.

## Model

| member | source | states |
|---|---|---|
| `Aggregate.Average` | src/App.jsx:4-5 | returns 0 for the empty list and the sum divided by the length otherwise |
| `Aggregate.ReduceIsScaledSum` | src/App.jsx:4-5 | folding `acc + cur / len` from `acc` gives `acc` plus the sum divided by `len` |
| `Aggregate.AverageSingleton` | src/App.jsx:4-5 | a one-element list averages to its element |
| `Aggregate.AverageExample` | src/App.jsx:4-5 | the mean of 2, 4, 6 is 4 |
| `Aggregate.AverageBounds` | src/App.jsx:4-5 | the mean of a non-empty list lies between any bounds of its elements |
| `Aggregate.AverageAppend` | src/App.jsx:4-5 | after appending x, the new mean times the new length is the old mean times the old length plus x |
| `WatchedStore.Add` | src/App.jsx:52-54 | the list grows by one, the earlier entries are unchanged and in order, the new entry is last |
| `WatchedStore.Delete` | src/App.jsx:57-59 | an entry survives exactly when it was present and its id differs; no entry with the id remains; the list does not grow |
| `WatchedStore.DeleteDistributes` | src/App.jsx:57-59 | delete keeps or drops a single entry by its id and distributes over concatenation, so survivors keep their order |
| `WatchedStore.DeleteAbsent` | src/App.jsx:57-59 | deleting an absent id leaves the list unchanged |
| `WatchedStore.DeleteIdempotent` | src/App.jsx:57-59 | deleting twice is deleting once |
| `WatchedStore.AddThenDelete` | src/App.jsx:52-59 | adding an entry with a new id and deleting that id restores the list |
| `WatchedStore.DeleteKeepsUnique` | src/App.jsx:57-59 | delete keeps ids unique |
| `WatchedStore.AddKeepsUnique` | src/App.jsx:52-54 | appending an entry whose id is absent keeps ids unique |
| `WatchedStore.DeleteRemovesOne` | src/App.jsx:57-59 | with unique ids, deleting a present id removes exactly one entry |
| `WatchedStore.WatchedSummary` | src/App.jsx:477-480 | the count is the length; every average is 0 for the empty list, else the field's sum over the count |
| `WatchedStore.SummaryAfterAdd` | src/App.jsx:477-480 | after an add each average times the new count is the old total plus the new entry's value |
| `WatchedStore.SummaryExample` | src/App.jsx:477-480 | entries rated 8/9 with 120 min and 6/7 with 100 min average 7, 8 and 110 |
| `MovieDetails.IsWatched` | src/App.jsx:305 | true exactly when some watched entry has the selected id |
| `MovieDetails.FindIndex` | src/App.jsx:307-309 | none exactly when the id is absent, else the index of the first entry with the id |
| `MovieDetails.WatchedUserRating` | src/App.jsx:307-309 | undefined exactly when the id is absent, else the rating of the first entry with the id |
| `MovieDetails.RatingOfUniqueEntry` | src/App.jsx:307-309 | with unique ids the rating shown is that of the only entry with the id |
| `MovieDetails.FirstWord` | src/App.jsx:332 | the result is a prefix with no space, followed in the input by a space or by nothing |
| `MovieDetails.FirstWordExample` | src/App.jsx:332 | the first word of "142 min" is "142" |
| `MovieDetails.CanAdd` | src/App.jsx:444-455 | the add button is offered exactly when the id is not watched and the rating is positive |
| `MovieDetails.NewWatchedMovie` | src/App.jsx:325-334 | no entry exactly when the detail has no runtime text (the split throws); otherwise the selected id and given rating, the detail's texts, and the coerced rating and first-word runtime |
| `MovieDetails.GuardedAddKeepsUnique` | src/App.jsx:325-337 | an add through the gate that builds an entry keeps ids unique, grows the list by one and makes the id watched |
| `Selection.Toggle` | src/App.jsx:44-46 | clears exactly when the id was selected, else selects the id |
| `Selection.Close` | src/App.jsx:47-49 | always clears |
| `Selection.ToggleTwice` | src/App.jsx:44-46 | toggling one id twice restores no selection or that id; from another id it ends cleared |
| `Selection.CloseIdempotent` | src/App.jsx:47-49 | closing twice is closing once |
| `Search.Initial` | src/App.jsx:12-20 | empty query, list and error, not loading, nothing in flight, valid |
| `Search.QueryChanged` | src/App.jsx:62-120 | same value: nothing; under 3 characters: only list and error cleared, no request; else loading set, error cleared, a request in flight under the new generation, selection closed; validity kept |
| `Search.Settle` | src/App.jsx:84-97 | not ok: the fetching error; `Response` "False": the not-found error with the list untouched; else the list is replaced and the error cleared; a rejection: its message |
| `Search.Completed` | src/App.jsx:92-100 | an aborted request only clears loading; a current one settles its outcome and clears loading; query and generation unchanged; validity kept |
| `Search.ArrivalOrderIrrelevant` | src/App.jsx:62-120 | for two searches in a row, both arrival orders end in the same state, the second search's list and error, not loading |
| `Search.StaleFinallyClearsLoading` | src/App.jsx:95-99 | an aborted request's finally clears loading while the newer request is still in flight, without touching list or error |
| `App.Init` | src/App.jsx:12-23 | empty query, list, error and watched list, not loading, nothing selected |
| `App.AddButtonShown` | src/App.jsx:155-160 | the add button is shown exactly when a non-empty id is selected, that id is not watched and the rating is positive |
| `App.Step` | src/App.jsx:44-120 | a new query of at least 3 characters starts loading and closes the details view, a short or unchanged one keeps the selection; an add through the shown button with a runtime appends the built entry and closes the view, any other add leaves list and selection; search events keep the watched list, the other events keep the search state |
| `App.Run` | src/App.jsx:44-120 | a one-event trace is that event's step |
| `App.RunConcat` | src/App.jsx:44-120 | running two traces in turn is running their concatenation |
| `App.RunKeepsWatched` | src/App.jsx:52-59 | a trace without add or delete events leaves the watched list unchanged, since only the two handlers write it |
| `App.StepKeepsInv` | src/App.jsx:44-120 | every event keeps ids unique and the search state valid |
| `App.RunKeepsInv` | src/App.jsx:44-120 | every trace keeps ids unique and the search state valid |
| `App.Reachable` | src/App.jsx:325-337 | in every reachable state ids are unique and loading has ended once nothing is in flight |
| `App.StaleStepRelated` | src/App.jsx:95-99 | an aborted completion changes nothing but the loading flag and the in-flight status of an earlier run's request |
| `App.FreshStepRelated` | src/App.jsx:44-120 | any other event maps related states to related states |
| `App.RelatedRuns` | src/App.jsx:62-120 | runs of a trace and of its stale-free version from related states end in states that agree on everything but the loading flag and the in-flight set |
| `App.StaleCompletionsOnlyClearLoading` | src/App.jsx:95-99 | removing all completions of aborted requests from any trace changes nothing but the loading flag and the in-flight set: query, list, error, selection and watched list agree |
| `App.SearchScenario` | src/App.jsx:62-120 | "Ti" clears the list without a request; "Titanic" loads and shows two hits; an unknown title shows the not-found error and keeps the list |
| `App.App.constructor` | src/App.jsx:12-23 | the initial state |
| `App.App.SetQuery` | src/App.jsx:62-120 | the new state is `Step` of the old one on the query event |
| `App.App.SearchCompleted` | src/App.jsx:69-101 | the new state is `Step` of the old one on the completion |
| `App.App.SelectMovie` | src/App.jsx:44-46 | the new state is `Step` of the old one on the click |
| `App.App.CloseMovie` | src/App.jsx:47-49 | the new state is `Step` of the old one on close |
| `App.App.AddFromDetails` | src/App.jsx:325-337 | reports an add exactly when the button was shown and the detail had a runtime; the new state is `Step` of the old one on the add |
| `App.App.DeleteWatched` | src/App.jsx:57-59 | the new state is `Step` of the old one on delete |

## Left out

- The `fetch` transport, the request URL and its API key, and `res.json()` parsing. A completion carries an abstract `Outcome` instead. A body without a `Search` array is not modelled.
- AbortController internals and promise scheduling. Aborting is the generation counter, and each completion is a single atomic event.
- The detail fetch (src/App.jsx:362-377) and the details view's own state (`movie`, its loading flag, `userRating`). The add event carries the detail record and the rating instead. A detail without `Title` or other texts is not modelled; only a missing `Runtime` is.
- The keydown listener and the `document.title` effect (src/App.jsx:340-398). These are DOM side effects. Escape is the `CloseMovie` event.
- JSX rendering, `Box`'s open/closed toggle and the `StarRating` component, which is not part of this model.
- `toFixed(2)` formatting and IEEE float rounding: averages are exact reals.
- `Number()` coercion of arbitrary text, including NaN for "N/A". This is the `toNumber` parameter.
- JavaScript string length counts UTF-16 code units. The model counts characters in the length-3 test.
- Visibility conditions of the list, delete and back buttons. Those events are modelled as their handlers. Only the add button's gate is modelled, because it is the guard that keeps ids unique.
- The commented-out code.
