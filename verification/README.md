# usePopcorn search and watched-list logic in Dafny

usePopcorn is a browser application for searching an online movie database by title,
opening a details pane for one result, rating it and keeping a personal "watched" list.
This project models the logic that is not rendering:

- the search-result lifecycle of the `useMovies` hook and of the inline copy in `App`,
  which also clears the selection and has no callback. Its state is `movies`, `isLoading` and `errorMsg`. A query shorter than three
  characters clears the hits and the message. A longer query starts a request. Each
  request ends with one `Outcome`: a payload, a payload whose `Response` is "False", a
  non-OK status, a body that cannot be decoded, a transport failure or an abort;
- the selection toggle, and the append, delete and lookups of the watched list;
- the watched entry that the details view builds (its runtime read from text like
  "148 min"), and the counter of rating decisions.

Modules, one concept each:

- `SearchMachine` (search_machine.dfy) holds the lifecycle as functions. `Settle` handles
  a request ending and `QueryChange` a render with a query; `Run` folds a series of events.
  Each abort controller is identified by a request number, and only the live request's
  ending changes anything.
- `UseMovies.MovieSearch` (use_movies.dfy) is the hook. It is a class whose fields are
  updated step by step, and each method is proved equal to the lifecycle functions.
- `App.App` (app.dfy) is the `App` component's state. It holds the same search fields,
  the selection and the watched list. Its search effect also clears the selection when it
  starts a request.
- `WatchedList` (watched.dfy) holds the list operations over `seq`.
- `Runtime` (runtime.dfy) reads the runtime text. `MovieDetails` (movie_details.dfy) holds
  `handleAdd`'s entry and the decision counter `RatingSession`.

Two facts about the code shape the model:

- An aborted request is not inert: its `finally` clears `isLoading` too (`Settle` with
  `Aborted`).
- The code has no fallback when nothing is stored (see Findings). `App` uses the
  corrected initialiser `InitialWatched`; `InitialWatchedAsWritten` keeps the code's.

The network, the clock and the browser are not modelled. A request's result comes in as
an `Outcome` parameter. The stored watched list comes in as a constructor parameter.

## Model

| member | source | states |
|---|---|---|
| SearchMachine.Settle | src/useMovies.js:21-37 | only the live request changes state. Its ending always clears `isLoading` and the live request, including on abort. A payload whose `Response` is not "False" replaces `movies` with its `Search` list and clears the message. "False" sets "Movies not found!", a non-OK status sets "", an undecodable body sets the decoder's message, and a transport failure sets "Connection Lost...". All of these keep `movies`. An abort keeps `movies` and the message. Consistency is preserved |
| SearchMachine.QueryChange | src/useMovies.js:11-50 | an unchanged query changes nothing. A changed query aborts the live request, and then: shorter than 3 characters empties `movies`, clears the message and starts no request; otherwise it sets `isLoading`, clears the message, keeps `movies` and makes a new request live. Consistency is preserved |
| SearchMachine.Mount | src/useMovies.js:6-8 | the initial state plus the first effect run: no hits, no message, loading exactly when the query has 3 or more characters |
| SearchMachine.TryBlock | src/useMovies.js:21-34 | the try block stores the hits exactly for a payload whose `Response` is not "False"; "False" throws "Movies not found!", a non-OK status throws an empty message, a transport failure is exactly the TypeError case and an abort exactly the AbortError case |
| SearchMachine.Caught | src/useMovies.js:29-34 | the catch block leaves the message alone exactly for an AbortError; a TypeError shows "Connection Lost...", any other error its own message |
| SearchMachine.Cleanup | src/useMovies.js:47-49 | the cleanup leaves no request live and keeps the query, hits and message; a consistent state comes out consistent and not loading; with no live request nothing changes |
| SearchMachine.Effect | src/useMovies.js:40-46 | the effect body: a query shorter than 3 characters empties the hits and clears the message and touches nothing else; a longer one sets `isLoading`, clears the message, keeps the hits and makes a new request live (lines 19-20); consistency is kept when no request was live |
| SearchMachine.Fresh | src/useMovies.js:6-8 | the initial state: no hits, not loading, no message, no request, and consistent |
| SearchMachine.RunKeepsConsistent | src/useMovies.js:19-37 | along any series of query changes and request endings, the model keeps `isLoading` true exactly while a request is live. In the code this holds only while aborts take effect at once (see Left out) |
| SearchMachine.SupersededRequestIsInert | src/useMovies.js:47-49 | in the model, a request that is no longer live never affects any later state: removing its endings from a run gives the same state. In the code this holds for `movies` and `errorMsg` only (see Left out) |
| SearchMachine.StaleResponseNeverApplies | src/useMovies.js:47-49 | after a query change while a request is in flight, that request's eventual response never changes `movies` or `errorMsg`. For `isLoading` this holds only in the model (see Left out) |
| SearchMachine.Without | src/useMovies.js:47-49 | helper with no code of its own, used to state the two lemmas above: an event is kept exactly when it is not an ending of the given request |
| SearchMachine.WithoutConcat | src/useMovies.js:47-49 | helper lemma: removing a request's endings distributes over concatenation, so the kept events stay in order |
| UseMovies.MovieSearch.constructor | src/useMovies.js:5-12 | mounting the hook reaches `Mount(query)`; the callback has run once if given |
| UseMovies.MovieSearch.RunEffect | src/useMovies.js:12-46 | the effect body runs the callback, when given, before the length gate, whatever the query length; the fields become `Effect` of the old state |
| UseMovies.MovieSearch.OnQueryChange | src/useMovies.js:11-50 | the fields become `QueryChange` of the old state and consistency is kept; the callback runs exactly when the query changed |
| UseMovies.MovieSearch.Abort | src/useMovies.js:47-49 | the cleanup aborts the live request (the `Cleanup` state); the callback does not run |
| UseMovies.MovieSearch.OnOutcome | src/useMovies.js:21-37 | the try, catch and finally blocks applied step by step give `Settle` of the old state |
| App.ToggleSelect | src/App.js:68-70 | the result is null exactly when the clicked id was the selected one; otherwise it is the clicked id |
| App.ToggleTwice | src/App.js:68-70 | clicking the same id twice restores the selection when nothing or that id was selected; from another selection it ends with nothing selected |
| App.App.constructor | src/App.js:57-66 | nothing selected, the stored list or the empty list, and the first search effect on the empty query |
| App.App.SelectMovie | src/App.js:68-70 | the selection becomes `ToggleSelect` of the old selection; nothing else changes |
| App.App.CloseMovie | src/App.js:72-75 | the selection is null afterwards; nothing else changes |
| App.App.AddWatched | src/App.js:77-80 | the list becomes the old list with the entry appended; nothing else changes |
| App.App.DeleteWatchedMovie | src/App.js:82-84 | the list becomes `Delete` of the old list; nothing else changes |
| App.App.ConfirmRating | src/App.js:377-392 | with blank details nothing changes. Otherwise the built entry is appended and the selection closes |
| App.App.RunSearchEffect | src/App.js:90-121 | the inline effect body gives `Effect` of the old search state. A long query also clears the selection; a short one keeps it |
| App.App.OnQueryChange | src/App.js:87-125 | the search fields become `QueryChange` of the old ones and consistency is kept. The selection is cleared exactly when a changed query starts a request |
| App.App.OnOutcome | src/App.js:96-112 | the inline try, catch and finally blocks give `Settle` of the old search state |
| App.InitialWatchedAsWritten | src/App.js:59-62 | the initial list as written: the parsed stored list, and null exactly when nothing is stored |
| App.UserRatingsAsWritten | src/App.js:463 | the summary's map over the list as written: the stored ratings in order, and a throw exactly when the list is null |
| App.IsWatchedAsWritten | src/App.js:315-317 | as the code has it, the lookup on a null list throws (`None`) exactly when the list is null |
| App.FirstLaunchThrows | src/App.js:59-62 | when nothing is stored, the initial list is null; the summary's map of the stored ratings over it (line 463) throws, as would the "is watched" lookup. The same null already fails the map just before it, at line 462 |
| App.InitialWatched | src/App.js:59-62 | corrected initialiser: the stored list when there is one, the empty list otherwise |
| App.FirstLaunchIsEmpty | src/App.js:59-62 | with the fallback, a first launch has every movie unwatched and no stored rating |
| App.ConfirmNewRating | src/App.js:377-392 | confirming a rating of 7 for a movie not on the list adds exactly one entry, and the stored rating then shown is 7 |
| WatchedList.Append | src/App.js:77-80 | the list grows by exactly one; the old entries stay in place and in order; the new entry is last |
| WatchedList.AppendKeepsDuplicates | src/App.js:77-79 | no de-duplication: the appended id occurs once more than before, even when it was already on the list |
| WatchedList.Delete | src/App.js:82-84 | an entry survives exactly when its id differs from the deleted id. The length drops by the number of entries with that id |
| WatchedList.DeleteConcat | src/App.js:82-84 | deletion distributes over concatenation, so survivors keep their relative order |
| WatchedList.DeleteAbsent | src/App.js:82-84 | deleting an id that is not on the list leaves the list unchanged |
| WatchedList.DeleteIdempotent | src/App.js:82-84 | deleting the same id twice equals deleting it once |
| WatchedList.DeleteForgets | src/App.js:82-84 | after deletion the id is unwatched and has no stored rating |
| WatchedList.DeleteKeepsOthers | src/App.js:82-84 | deleting one id changes neither lookup for any other id |
| WatchedList.Ids | src/App.js:315-316 | the ids of the entries, one per entry, in order |
| WatchedList.IsWatched | src/App.js:315-317 | true exactly when some entry carries the selected id |
| WatchedList.FindFirst | src/App.js:319-321 | the position of an entry with the id that no earlier entry has; none when no entry has it |
| WatchedList.WatchedUserRating | src/App.js:319-321 | defined exactly when the id is watched; then it is the rating of the first entry with that id |
| WatchedList.FindFirstTail | src/App.js:315-321 | both lookups on a non-empty list: the head entry answers when it carries the id, the rest of the list otherwise |
| WatchedList.AppendLookup | src/App.js:315-321 | after appending, the new id is watched. An id that was already watched keeps its earlier stored rating, because lookup takes the first match. A new id shows the new entry's rating |
| WatchedList.CountIdConcat | src/App.js:77-79 | occurrence counts of an id add up over concatenation |
| Runtime.FirstWord | src/App.js:385 | the first part of splitting on a space: a prefix of the text with no space, followed by a space or by the end of the text |
| Runtime.NumeralValue | src/App.js:385 | the number a string of decimal digits denotes; it is 0 exactly when every digit is '0' (so the empty string gives 0) |
| Runtime.ParseRuntime | src/App.js:385 | the first word of the runtime text converted to a number: a number exactly when that word is made of decimal digits, and 0 exactly when all of them are '0' |
| Runtime.NumeralValueOfDecimal | src/App.js:385 | converting a number's decimal form back to a number gives the number |
| Runtime.FirstWordOfSpaced | src/App.js:385 | the first word of "w rest" is `w` when `w` has no space |
| Runtime.ParseRuntimeOfMinutes | src/App.js:385 | "<n> min", or a numeral followed by any other words, gives `n` |
| Runtime.ParseRuntimeExample | src/App.js:385 | "148 min" gives 148 |
| Runtime.LeadingSpaceIsZero | src/App.js:385 | a runtime text starting with a space has an empty first word, which converts to 0 |
| MovieDetails.HandleAdd | src/App.js:377-388 | no entry while the details are blank. Otherwise the entry has the selected id, the pending rating, the current counter, the details' title, year, poster and rating text, and the runtime `ParseRuntime` reads from the details' runtime text |
| MovieDetails.HandleAddRuntimeUnknown | src/App.js:385 | details whose runtime is "N/A" give an entry with no runtime |
| MovieDetails.HandleAddRuntime | src/App.js:385 | details with runtime "<n> min" give an entry with runtime `n` |
| MovieDetails.IsDecision | src/App.js:312 | a setting counts as a decision exactly when it changes the rating to a non-zero value: re-setting the same rating and clearing it never count |
| MovieDetails.Decisions | src/App.js:309-313 | the counter never exceeds the number of times the rating was set |
| MovieDetails.DecisionsConcat | src/App.js:309-313 | counts over consecutive series of settings add up; the rating ends where the last series ends |
| MovieDetails.DecisionsMonotone | src/App.js:309-313 | more settings never lower the counter |
| MovieDetails.RatingSession.constructor | src/App.js:307-313 | a freshly mounted details view has no rating and a counter of 0 |
| MovieDetails.RatingSession.SetUserRating | src/App.js:307-313 | the counter rises by exactly one when the rating changes to a non-zero value, and otherwise stays. Its invariant ties the counter to `Decisions` of every value set so far |

## Left out

- The network and JSON decoding. Each request's result is an `Outcome` value. A decoded success payload always carries a list; a missing `Search` field is not modelled.
- SearchMachine.SupersededRequestIsInert, SearchMachine.RunKeepsConsistent, SearchMachine.StaleResponseNeverApplies: the asynchronous timing of an abort is not modelled; the model applies the abort at once, in the cleanup. In the code, `controller.abort()` (src/useMovies.js:47-49, src/App.js:122-124) settles the old request only in a later microtask, after the next effect has already set `isLoading` (src/useMovies.js:19, src/App.js:94). The old request's `finally` (src/useMovies.js:35-37, src/App.js:110-112) then clears `isLoading` while the new request is in flight, so the loader disappears and the previous hits show (src/App.js:148-151). In the code these properties therefore hold for `movies` and `errorMsg` only, not for `isLoading`.
- The details fetch of the details view: its loading flag, its clearing of `App`'s error message, and its setting of that message to "Connection Lost..." on a transport failure (src/App.js:349-351), which writes into the search state the model reasons about. It has no cancellation and is network-driven. The details come in as a parameter of `ConfirmRating`.
- Storage of the watched list and its serialisation. The stored list comes in as the `App` constructor's parameter.
- The page title effects, the Enter and Escape key listeners, and all rendering components.
- The averages of the summary, and the conversion of `imdbRating` to a number. Both are floating point; an entry keeps the rating text.
- Runtime.ParseRuntime: a first word that is not made of decimal digits gives `None`. The code's conversion gives NaN for most such words and a number for some: hex, exponent and signed forms, decimal fractions such as "1.5", words padded with tabs or other whitespace, and "Infinity". It also rounds numerals above 2^53 to the nearest double, while the model's `nat` is exact.
- `query.length` counts UTF-16 code units; the model counts Dafny characters. They differ for characters outside the Basic Multilingual Plane.
- The star widget is not part of this model. A pending rating is a natural number, and 0 stands for the initial empty rating, which is falsy as the empty string is.
- `movieLoading`, which closing the details sets to null, is never read. It is not modelled.
- The details view has no key, so selecting another movie while it is open keeps its `RatingSession`. `App` does not hold the session; the rating and counter come in as parameters of `ConfirmRating`.
- The initial details object `{}` is not modelled. It is replaced by the blank value before the add button can show, so a blank value (`None`) stands for both.
- Deleting reads the list of the current render, not the argument of its state updater. The model deletes from the current list. The two agree because no handler queues two updates of the list in one batch.

## Findings

| source | as written | input that shows it | evidently intended | confidence | as-written member | corrected member |
|---|---|---|---|---|---|---|
| src/App.js:59-62 | the initial watched list is the parsed stored text with no fallback, so nothing stored gives null. With nothing selected, the first render shows the watched summary, whose `watched.map` (src/App.js:462) throws on null | first launch: nothing stored under "watchedList" | fall back to an empty list when nothing is stored | high; not executed | App.FirstLaunchThrows | App.InitialWatched |
