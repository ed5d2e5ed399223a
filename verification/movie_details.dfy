/**
 * The parts of the details view `MovieDetails` (src/App.js) that are not rendering:
 * the entry `handleAdd` builds, and the counter of rating decisions kept in a ref.
 */
module MovieDetails {
  import opened Wrappers
  import opened Movies
  import opened Runtime

  /**
   * The entry `handleAdd` builds for the selected movie, from the fetched details, the
   * pending rating and the counter. `None` when the details are blank (cleared while
   * loading, or never filled because the request failed): then nothing is added.
   */
  function HandleAdd(selected: string, details: Option<Details>, userRating: nat, count: nat)
    : (r: Option<WatchedEntry>)
    ensures r.None? <==> details.None?
    ensures r.Some? ==>
      && r.value.imdbID == selected
      && r.value.userRating == userRating
      && r.value.countRatingDecisions == count
      && r.value.title == details.value.title
      && r.value.year == details.value.year
      && r.value.poster == details.value.poster
      && r.value.imdbRating == details.value.imdbRating
      && r.value.runtime == ParseRuntime(details.value.runtime)
  {
    match details
    case None => None
    case Some(d) =>
      Some(WatchedEntry(selected, d.title, d.year, d.poster, d.imdbRating,
                        ParseRuntime(d.runtime), userRating, count))
  }

  /** A runtime text "<n> min" gives an entry whose runtime is `n`. */
  lemma HandleAddRuntime(selected: string, d: Details, userRating: nat, count: nat, n: nat)
    requires d.runtime == Decimal(n) + " min"
    ensures HandleAdd(selected, Some(d), userRating, count).value.runtime == Some(n)
  {
    ParseRuntimeOfMinutes(n, "min");
    assert Decimal(n) + " " + "min" == d.runtime;
  }

  /** A runtime text the database marks as unknown, "N/A", gives an entry with no runtime. */
  lemma HandleAddRuntimeUnknown(selected: string, d: Details, userRating: nat, count: nat)
    requires d.runtime == "N/A"
    ensures HandleAdd(selected, Some(d), userRating, count).value.runtime == None
  {
    assert !IsDigit(d.runtime[0]);
  }

  /**
   * Whether setting the pending rating from `prev` to `next` makes the counter's effect
   * increment: React runs the effect only when the value changes, and the effect
   * increments only for a truthy rating (0 stands for the initial empty rating).
   */
  function IsDecision(prev: nat, next: nat): (b: bool)
    ensures next == prev ==> !b
    ensures next == 0 ==> !b
    ensures next != prev && next != 0 ==> b
  {
    next != prev && next != 0
  }

  /** The rating after a series of settings that starts at `prev`. */
  function Last(prev: nat, ratings: seq<nat>): nat {
    if ratings == [] then prev else ratings[|ratings| - 1]
  }

  /** How many of the settings `ratings`, starting at `prev`, are decisions. */
  function Decisions(prev: nat, ratings: seq<nat>): (n: nat)
    ensures n <= |ratings|
    decreases |ratings|
  {
    if ratings == [] then 0
    else (if IsDecision(prev, ratings[0]) then 1 else 0) + Decisions(ratings[0], ratings[1..])
  }

  /** Decisions over two series in a row add up; the second series starts where the first ended. */
  lemma {:induction false} DecisionsConcat(prev: nat, a: seq<nat>, b: seq<nat>)
    ensures Decisions(prev, a + b) == Decisions(prev, a) + Decisions(Last(prev, a), b)
    ensures Last(prev, a + b) == Last(Last(prev, a), b)
    decreases |a|
  {
    if a == [] {
      assert a + b == b;
    } else {
      assert (a + b)[0] == a[0];
      assert (a + b)[1..] == a[1..] + b;
      DecisionsConcat(a[0], a[1..], b);
      assert Last(a[0], a[1..]) == Last(prev, a);
    }
  }

  /** More settings never lower the count. */
  lemma DecisionsMonotone(prev: nat, a: seq<nat>, b: seq<nat>)
    ensures Decisions(prev, a) <= Decisions(prev, a + b)
  {
    DecisionsConcat(prev, a, b);
  }

  /**
   * The pending rating of one mounted details view and its decision counter (a ref,
   * incremented in place). `history` is every value the rating was set to.
   */
  class RatingSession {
    var userRating: nat
    var count: nat
    ghost var history: seq<nat>

    ghost predicate Valid()
      reads this
    {
      userRating == Last(0, history) && count == Decisions(0, history)
    }

    /** Mounting: no rating yet, and the effect's first run does not count. */
    constructor ()
      ensures Valid() && userRating == 0 && count == 0 && history == []
    {
      userRating, count := 0, 0;
      history := [];
    }

    /** The star widget sets the pending rating; the counter's effect runs if it changed. */
    method SetUserRating(rating: nat)
      requires Valid()
      modifies this
      ensures Valid() && userRating == rating && history == old(history) + [rating]
      ensures count == old(count) + if IsDecision(old(userRating), rating) then 1 else 0
    {
      DecisionsConcat(0, history, [rating]);
      history := history + [rating];
      if rating == userRating {
        return;
      }
      userRating := rating;
      if userRating != 0 {
        count := count + 1;
      }
    }
  }
}
