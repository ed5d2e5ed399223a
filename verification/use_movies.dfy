/**
 * The `useMovies` hook (src/useMovies.js): the search state as fields that the
 * effect and the request update one after another.
 */
module UseMovies {
  import opened Wrappers
  import opened Movies
  import opened SearchMachine

  class MovieSearch {
    var query: string
    var movies: seq<Movie>
    var isLoading: bool
    var errorMsg: string
    /** The request whose abort controller is live and which has not settled. */
    var live: Option<nat>
    var nextRequest: nat
    /** How many times the optional callback has been invoked. */
    var callbackRuns: nat

    function State(): SearchState
      reads this
    {
      SearchState(query, movies, isLoading, errorMsg, live, nextRequest)
    }

    ghost predicate Valid()
      reads this
    {
      Consistent(State())
    }

    /** Mounting the hook with `query`: the initial state, then the first effect run. */
    constructor (query: string, hasCallback: bool)
      ensures Valid() && State() == Mount(query)
      ensures callbackRuns == if hasCallback then 1 else 0
    {
      this.query := query;
      movies, isLoading, errorMsg := [], false, "";
      live, nextRequest := None, 0;
      callbackRuns := 0;
      new;
      RunEffect(hasCallback);
    }

    /**
     * The effect body for the current query: the callback runs first, then the length
     * gate either clears the hits and the message or starts a request.
     */
    method RunEffect(hasCallback: bool)
      modifies this
      ensures State() == Effect(old(State()))
      ensures callbackRuns == old(callbackRuns) + if hasCallback then 1 else 0
    {
      if hasCallback {
        callbackRuns := callbackRuns + 1;
      }
      if |query| < MinQueryLength {
        errorMsg := "";
        movies := [];
        return;
      }
      isLoading := true;
      errorMsg := "";
      live := Some(nextRequest);
      nextRequest := nextRequest + 1;
    }

    /**
     * A render with `query`. React runs the effect only when the query differs from the
     * one of the previous run; it first runs the previous run's cleanup, which aborts
     * the live request.
     */
    method OnQueryChange(query: string, hasCallback: bool)
      requires Valid()
      modifies this
      ensures Valid() && State() == QueryChange(old(State()), query)
      ensures callbackRuns == old(callbackRuns) + if query != old(this.query) && hasCallback then 1 else 0
    {
      if query == this.query {
        return;
      }
      Abort();
      this.query := query;
      RunEffect(hasCallback);
    }

    /** The cleanup returned by the effect: aborting the live request's controller. */
    method Abort()
      modifies this
      ensures State() == Cleanup(old(State())) && callbackRuns == old(callbackRuns)
      ensures old(Valid()) ==> Valid()
    {
      if live.Some? {
        OnOutcome(live.value, Aborted);
      }
    }

    /** Request `request` ends with `outcome`: the try, catch and finally blocks. */
    method OnOutcome(request: nat, outcome: Outcome)
      modifies this
      ensures State() == Settle(old(State()), request, outcome)
      ensures callbackRuns == old(callbackRuns)
      ensures old(Valid()) ==> Valid()
    {
      if live != Some(request) {
        return;
      }
      match TryBlock(outcome) {
        case Stored(search) =>
          movies := search;
          errorMsg := "";
        case Threw(thrown) =>
          if thrown.TypeError? {
            errorMsg := ConnectionLost;
          } else if !thrown.AbortError? {
            errorMsg := thrown.message;
          }
      }
      isLoading := false;
      live := None;
    }
  }
}
