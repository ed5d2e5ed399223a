/**
 * The search-result lifecycle shared by the `useMovies` hook (src/useMovies.js) and
 * the inline copy of it in `App` (src/App.js): the state `movies`, `isLoading`,
 * `errorMsg`, the query the effect last ran for, and the request whose controller is
 * still live. Requests are numbered in the order their controllers are created.
 * Functions only; the classes in UseMovies and App update their fields step by step
 * and are proved against these functions.
 */
module SearchMachine {
  import opened Wrappers
  import opened Movies

  /** A query shorter than this clears the results and starts no request. */
  const MinQueryLength: nat := 3

  /** The message shown when the request cannot reach the endpoint. */
  const ConnectionLost: string := "Connection Lost..."

  /** The message of the error thrown for a payload whose `Response` is "False". */
  const NotFoundMessage: string := "Movies not found!"

  /** How one search request ends; the network is not modelled and only supplies this. */
  datatype Outcome =
    | Payload(response: string, search: seq<Movie>)  // status OK, body decoded to `Response` and `Search`
    | HttpNotOk                                       // the response's status is not OK
    | BodyUnreadable(message: string)                 // decoding the body failed with this message
    | TransportFailure                                // `fetch` rejected with a TypeError
    | Aborted                                         // the request's controller was aborted

  /** What the request's try block can throw. */
  datatype Thrown = TypeError | AbortError | PlainError(message: string)

  /** How the try block ends: it stores the hits, or it throws. */
  datatype Attempt = Stored(search: seq<Movie>) | Threw(thrown: Thrown)

  /** The try block after its first await: a non-OK status and a "False" payload throw plain errors. */
  function TryBlock(o: Outcome): (a: Attempt)
    ensures a.Stored? <==> o.Payload? && o.response != "False"
    ensures a.Stored? ==> a.search == o.search
    ensures o.Payload? && o.response == "False" ==> a == Threw(PlainError(NotFoundMessage))
    ensures o.HttpNotOk? ==> a == Threw(PlainError(""))
    ensures a == Threw(TypeError) <==> o.TransportFailure?
    ensures a == Threw(AbortError) <==> o.Aborted?
  {
    match o
    case Payload(response, search) =>
      if response == "False" then Threw(PlainError(NotFoundMessage)) else Stored(search)
    case HttpNotOk => Threw(PlainError(""))
    case BodyUnreadable(message) => Threw(PlainError(message))
    case TransportFailure => Threw(TypeError)
    case Aborted => Threw(AbortError)
  }

  /** The catch block: the message it shows, or `None` when it leaves the message alone. */
  function Caught(t: Thrown): (m: Option<string>)
    ensures m.None? <==> t.AbortError?
    ensures t.TypeError? ==> m == Some(ConnectionLost)
    ensures t.PlainError? ==> m == Some(t.message)
  {
    match t
    case TypeError => Some(ConnectionLost)
    case AbortError => None
    case PlainError(message) => Some(message)
  }

  /**
   * The hook's state. `query` is the value the effect last ran for, `live` the request
   * whose controller has not been aborted and which has not settled yet, and
   * `nextRequest` the number the next request gets.
   */
  datatype SearchState = SearchState(
    query: string,
    movies: seq<Movie>,
    isLoading: bool,
    errorMsg: string,
    live: Option<nat>,
    nextRequest: nat)

  /** The invariant every reachable state keeps: loading exactly while a request is live. */
  predicate Consistent(s: SearchState) {
    s.isLoading == s.live.Some? && (s.live.Some? ==> s.live.value < s.nextRequest)
  }

  /**
   * Request `request` ends with `o`. Only the live request changes anything; its
   * `finally` always clears `isLoading`.
   */
  function Settle(s: SearchState, request: nat, o: Outcome): (r: SearchState)
    ensures s.live != Some(request) ==> r == s
    ensures s.live == Some(request) ==>
      && !r.isLoading && r.live == None
      && r.query == s.query && r.nextRequest == s.nextRequest
    ensures s.live == Some(request) && o.Payload? && o.response != "False" ==>
      r.movies == o.search && r.errorMsg == ""
    ensures !(o.Payload? && o.response != "False") ==> r.movies == s.movies
    ensures s.live == Some(request) && o.Payload? && o.response == "False" ==> r.errorMsg == NotFoundMessage
    ensures s.live == Some(request) && o.HttpNotOk? ==> r.errorMsg == ""
    ensures s.live == Some(request) && o.BodyUnreadable? ==> r.errorMsg == o.message
    ensures s.live == Some(request) && o.TransportFailure? ==> r.errorMsg == ConnectionLost
    ensures o.Aborted? ==> r.errorMsg == s.errorMsg
    ensures Consistent(s) ==> Consistent(r)
  {
    if s.live != Some(request) then s
    else
      var settled := s.(isLoading := false, live := None);
      match TryBlock(o)
      case Stored(search) => settled.(movies := search, errorMsg := "")
      case Threw(t) => settled.(errorMsg := Caught(t).GetOr(s.errorMsg))
  }

  /** The cleanup of the previous effect run: its controller is aborted. */
  function Cleanup(s: SearchState): (r: SearchState)
    ensures r.live == None
    ensures r.query == s.query && r.movies == s.movies && r.errorMsg == s.errorMsg
    ensures r.nextRequest == s.nextRequest
    ensures s.live.Some? ==> !r.isLoading
    ensures s.live.None? ==> r == s
    ensures Consistent(s) ==> Consistent(r) && !r.isLoading
  {
    if s.live.Some? then Settle(s, s.live.value, Aborted) else s
  }

  /** The effect body for `s.query`, up to the first await of the request it may start. */
  function Effect(s: SearchState): (r: SearchState)
    ensures r.query == s.query
    ensures |s.query| < MinQueryLength ==>
      && r.movies == [] && r.errorMsg == ""
      && r.isLoading == s.isLoading && r.live == s.live && r.nextRequest == s.nextRequest
    ensures |s.query| >= MinQueryLength ==>
      && r.isLoading && r.errorMsg == "" && r.movies == s.movies
      && r.live == Some(s.nextRequest) && r.nextRequest == s.nextRequest + 1
    ensures Consistent(s) && s.live.None? ==> Consistent(r)
  {
    if |s.query| < MinQueryLength then
      s.(movies := [], errorMsg := "")
    else
      s.(isLoading := true, errorMsg := "", live := Some(s.nextRequest), nextRequest := s.nextRequest + 1)
  }

  /** The state before the first effect run. */
  function Fresh(query: string): (r: SearchState)
    ensures Consistent(r) && r.query == query
    ensures r.movies == [] && !r.isLoading && r.errorMsg == "" && r.live == None
  {
    SearchState(query, [], false, "", None, 0)
  }

  /** Mounting with `query`: the initial state, then the effect runs once whatever the query. */
  function Mount(query: string): (r: SearchState)
    ensures Consistent(r) && r.query == query && r.movies == [] && r.errorMsg == ""
    ensures r.isLoading <==> |query| >= MinQueryLength
  {
    Effect(Fresh(query))
  }

  /**
   * A render with `query`. The effect depends on the query only, so an unchanged query
   * changes nothing; otherwise the previous request is aborted and the effect runs
   * again: a short query clears the hits and the message, a long one starts a request
   * that sets `isLoading`, clears the message and keeps the hits shown so far.
   */
  function QueryChange(s: SearchState, query: string): (r: SearchState)
    ensures query == s.query ==> r == s
    ensures query != s.query ==> r.query == query
    ensures query != s.query && |query| < MinQueryLength ==>
      r.movies == [] && r.errorMsg == "" && r.live == None && r.nextRequest == s.nextRequest
    ensures query != s.query && |query| >= MinQueryLength ==>
      && r.isLoading && r.errorMsg == "" && r.movies == s.movies
      && r.live == Some(s.nextRequest) && r.nextRequest == s.nextRequest + 1
    ensures Consistent(s) ==> Consistent(r)
  {
    if query == s.query then s else Effect(Cleanup(s).(query := query))
  }

  /** What can happen to the hook: a render with a query, or a request ending. */
  datatype Event = QueryChanged(query: string) | Settled(request: nat, outcome: Outcome)

  function Step(s: SearchState, e: Event): SearchState {
    match e
    case QueryChanged(query) => QueryChange(s, query)
    case Settled(request, o) => Settle(s, request, o)
  }

  /** The state after the events, in order. */
  function Run(s: SearchState, events: seq<Event>): SearchState
    decreases |events|
  {
    if events == [] then s else Run(Step(s, events[0]), events[1..])
  }

  /** The events without the endings of request `request`. */
  function Without(events: seq<Event>, request: nat): (r: seq<Event>)
    ensures |r| <= |events|
    ensures forall e :: e in r <==> e in events && !(e.Settled? && e.request == request)
  {
    if events == [] then []
    else if events[0].Settled? && events[0].request == request then Without(events[1..], request)
    else [events[0]] + Without(events[1..], request)
  }

  /** Removing endings distributes over concatenation, so the kept events stay in their order. */
  lemma {:induction false} WithoutConcat(a: seq<Event>, b: seq<Event>, request: nat)
    ensures Without(a + b, request) == Without(a, request) + Without(b, request)
    decreases |a|
  {
    if a == [] {
      assert a + b == b;
    } else {
      assert (a + b)[0] == a[0];
      assert (a + b)[1..] == a[1..] + b;
      WithoutConcat(a[1..], b, request);
    }
  }

  /** Every state reachable from a consistent one is consistent. */
  lemma {:induction false} RunKeepsConsistent(s: SearchState, events: seq<Event>)
    requires Consistent(s)
    ensures Consistent(Run(s, events))
    decreases |events|
  {
    if events != [] {
      RunKeepsConsistent(Step(s, events[0]), events[1..]);
    }
  }

  /**
   * A request that is no longer live never becomes live again, so whatever it ends
   * with changes nothing: dropping its endings from any run gives the same state.
   */
  lemma {:induction false} SupersededRequestIsInert(s: SearchState, events: seq<Event>, request: nat)
    requires Consistent(s) && request < s.nextRequest && s.live != Some(request)
    ensures Run(s, events) == Run(s, Without(events, request))
    decreases |events|
  {
    if events != [] {
      var e, rest := events[0], events[1..];
      var next := Step(s, e);
      if e.Settled? && e.request == request {
        assert next == s;
        SupersededRequestIsInert(s, rest, request);
      } else {
        assert Without(events, request) == [e] + Without(rest, request);
        assert ([e] + Without(rest, request))[1..] == Without(rest, request);
        SupersededRequestIsInert(next, rest, request);
      }
    }
  }

  /**
   * Changing the query while a request is in flight makes that request's eventual
   * response irrelevant: the run is the same with or without it.
   */
  lemma StaleResponseNeverApplies(s: SearchState, query: string, events: seq<Event>)
    requires Consistent(s) && s.live.Some? && query != s.query
    ensures Run(s, [QueryChanged(query)] + events)
         == Run(s, [QueryChanged(query)] + Without(events, s.live.value))
  {
    var next := QueryChange(s, query);
    assert ([QueryChanged(query)] + events)[1..] == events;
    assert ([QueryChanged(query)] + Without(events, s.live.value))[1..] == Without(events, s.live.value);
    SupersededRequestIsInert(next, events, s.live.value);
  }
}
