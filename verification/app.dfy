/**
 * The state logic of the `App` component (src/App.js): the selected movie, the
 * watched list and the inline copy of the search lifecycle, without the rendering.
 */
module App {
  import opened Wrappers
  import opened Movies
  import opened SearchMachine
  import opened WatchedList
  import opened MovieDetails

  /**
   * Clicking a movie in the results: clicking the selected one closes it, clicking any
   * other selects that one.
   */
  function ToggleSelect(current: Option<string>, id: string): (r: Option<string>)
    ensures r.None? <==> current == Some(id)
    ensures r.Some? ==> r.value == id
  {
    if current == Some(id) then None else Some(id)
  }

  /**
   * Clicking the same movie twice restores the selection when nothing or that movie was
   * selected; when another movie was selected, it ends with nothing selected.
   */
  lemma ToggleTwice(current: Option<string>, id: string)
    ensures ToggleSelect(ToggleSelect(current, id), id)
         == if current.None? || current == Some(id) then current else None
  {
  }

  /**
   * The watched list at start-up as the code reads it: the parsed stored text, which is
   * null when nothing is stored yet.
   */
  function InitialWatchedAsWritten(stored: Option<seq<WatchedEntry>>): (r: Option<seq<WatchedEntry>>)
    ensures r.None? <==> stored.None?
    ensures stored.Some? ==> r == stored
  {
    stored
  }

  /**
   * Whether the selected movie is watched, as the code computes it on the list it has:
   * mapping over a null list throws (`None`).
   */
  function IsWatchedAsWritten(watched: Option<seq<WatchedEntry>>, id: string): (r: Option<bool>)
    ensures r.None? <==> watched.None?
  {
    match watched
    case None => None
    case Some(ws) => Some(IsWatched(ws, id))
  }

  /**
   * The watched summary's pass over the list for the stored ratings, as the code has it:
   * the stored rating of every entry, in order; mapping over a null list throws (`None`).
   * The pass just before it, over the database ratings, fails on a null list the same way.
   */
  function UserRatingsAsWritten(watched: Option<seq<WatchedEntry>>): (r: Option<seq<nat>>)
    ensures r.None? <==> watched.None?
    ensures r.Some? ==> |r.value| == |watched.value|
    ensures r.Some? ==> forall i :: 0 <= i < |r.value| ==> r.value[i] == watched.value[i].userRating
  {
    match watched
    case None => None
    case Some(ws) => Some(seq(|ws|, i requires 0 <= i < |ws| => ws[i].userRating))
  }

  /**
   * On a first launch nothing is stored, so the list is null: the summary, which is
   * rendered while nothing is selected, throws on it, and so would the "is watched" lookup.
   */
  lemma FirstLaunchThrows(id: string)
    ensures InitialWatchedAsWritten(None).None?
    ensures UserRatingsAsWritten(InitialWatchedAsWritten(None)).None?
    ensures IsWatchedAsWritten(InitialWatchedAsWritten(None), id).None?
  {
  }

  /** The watched list at start-up: the stored list, or the empty list when nothing is stored. */
  function InitialWatched(stored: Option<seq<WatchedEntry>>): (r: seq<WatchedEntry>)
    ensures stored.Some? ==> r == stored.value
    ensures stored.None? ==> |r| == 0
  {
    stored.GetOr([])
  }

  /** With the fallback, a first launch shows an empty list and every lookup answers "not watched". */
  lemma FirstLaunchIsEmpty(id: string)
    ensures !IsWatched(InitialWatched(None), id) && WatchedUserRating(InitialWatched(None), id).None?
  {
  }

  /**
   * Confirming a first rating of 7 for a movie that is not on the list adds exactly one
   * entry, and the details view then shows 7 as the stored rating.
   */
  lemma ConfirmNewRating(ws: seq<WatchedEntry>, id: string, d: Details, count: nat)
    requires !IsWatched(ws, id)
    ensures var e := HandleAdd(id, Some(d), 7, count).value;
      |Append(ws, e)| == |ws| + 1 && WatchedUserRating(Append(ws, e), id) == Some(7)
  {
  }

  /** The state of `App` that is not rendering. */
  class App {
    var query: string
    var movies: seq<Movie>
    var isLoading: bool
    var errorMsg: string
    /** The request whose abort controller is live and which has not settled. */
    var live: Option<nat>
    var nextRequest: nat
    var selected: Option<string>
    var watched: seq<WatchedEntry>

    function SearchPart(): SearchState
      reads this
    {
      SearchState(query, movies, isLoading, errorMsg, live, nextRequest)
    }

    ghost predicate Valid()
      reads this
    {
      Consistent(SearchPart())
    }

    /** Mounting: an empty query, nothing selected, the stored list; then the search effect runs once. */
    constructor (stored: Option<seq<WatchedEntry>>)
      ensures Valid() && SearchPart() == Mount("")
      ensures selected == None && watched == InitialWatched(stored)
    {
      query, movies, isLoading, errorMsg := "", [], false, "";
      live, nextRequest := None, 0;
      selected := None;
      watched := InitialWatched(stored);
      new;
      RunSearchEffect();
    }

    method SelectMovie(id: string)
      modifies this`selected
      ensures selected == ToggleSelect(old(selected), id)
    {
      selected := ToggleSelect(selected, id);
    }

    method CloseMovie()
      modifies this`selected
      ensures selected == None
    {
      selected := None;
    }

    method AddWatched(e: WatchedEntry)
      modifies this`watched
      ensures watched == Append(old(watched), e)
    {
      watched := Append(watched, e);
    }

    method DeleteWatchedMovie(id: string)
      modifies this`watched
      ensures watched == Delete(old(watched), id)
    {
      watched := Delete(watched, id);
    }

    /**
     * The details view's add button: when the details are there it adds the entry it
     * builds and closes the view; otherwise nothing happens.
     */
    method ConfirmRating(details: Option<Details>, userRating: nat, count: nat)
      requires selected.Some?
      modifies this`watched, this`selected
      ensures var e := HandleAdd(old(selected).value, details, userRating, count);
        if e.None? then watched == old(watched) && selected == old(selected)
        else watched == Append(old(watched), e.value) && selected == None
    {
      var e := HandleAdd(selected.value, details, userRating, count);
      if e.None? {
        return;
      }
      AddWatched(e.value);
      CloseMovie();
    }

    /**
     * The search effect for the current query: a short query clears the hits and the
     * message; a long one clears the selection and starts a request.
     */
    method RunSearchEffect()
      modifies this`movies, this`isLoading, this`errorMsg, this`live, this`nextRequest, this`selected
      ensures SearchPart() == Effect(old(SearchPart()))
      ensures selected == if |query| < MinQueryLength then old(selected) else None
    {
      if |query| < MinQueryLength {
        errorMsg := "";
        movies := [];
        return;
      }
      selected := None;
      isLoading := true;
      errorMsg := "";
      live := Some(nextRequest);
      nextRequest := nextRequest + 1;
    }

    /** Typing in the search box: the search effect runs again when the query changed. */
    method OnQueryChange(query: string)
      requires Valid()
      modifies this`query, this`movies, this`isLoading, this`errorMsg, this`live, this`nextRequest, this`selected
      ensures Valid() && SearchPart() == QueryChange(old(SearchPart()), query)
      ensures selected == if query != old(this.query) && |query| >= MinQueryLength then None else old(selected)
    {
      if query == this.query {
        return;
      }
      if live.Some? {
        OnOutcome(live.value, Aborted);
      }
      this.query := query;
      RunSearchEffect();
    }

    /** Request `request` ends with `outcome`. */
    method OnOutcome(request: nat, outcome: Outcome)
      modifies this`movies, this`isLoading, this`errorMsg, this`live
      ensures SearchPart() == Settle(old(SearchPart()), request, outcome)
      ensures old(Valid()) ==> Valid()
    {
      if live != Some(request) {
        return;
      }
      match TryBlock(outcome) {
        case Stored(search) =>
          movies := search;
          errorMsg := "";
        case Threw(thrown) =>
          if thrown.TypeError? {
            errorMsg := ConnectionLost;
          } else if !thrown.AbortError? {
            errorMsg := thrown.message;
          }
      }
      isLoading := false;
      live := None;
    }
  }
}
