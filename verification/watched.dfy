/**
 * The watched list of `App` (src/App.js) as a sequence: appending an entry, deleting
 * by id, and the two lookups the details view makes.
 */
module WatchedList {
  import opened Wrappers
  import opened Movies

  /** How many entries carry `id`. */
  function CountId(ws: seq<WatchedEntry>, id: string): (n: nat)
    ensures n <= |ws|
  {
    if ws == [] then 0 else (if ws[0].imdbID == id then 1 else 0) + CountId(ws[1..], id)
  }

  /** Adding a movie to the list: it goes at the end; nothing checks for its id already being there. */
  function Append(ws: seq<WatchedEntry>, e: WatchedEntry): (r: seq<WatchedEntry>)
    ensures |r| == |ws| + 1 && r[..|ws|] == ws && r[|ws|] == e
  {
    ws + [e]
  }

  /** Deleting by id: the entries whose id is not `id`, in their order. */
  function Delete(ws: seq<WatchedEntry>, id: string): (r: seq<WatchedEntry>)
    ensures forall e :: e in r <==> e in ws && e.imdbID != id
    ensures |r| == |ws| - CountId(ws, id)
  {
    if ws == [] then []
    else if ws[0].imdbID != id then [ws[0]] + Delete(ws[1..], id)
    else Delete(ws[1..], id)
  }

  /** The ids of the entries, in order. */
  function Ids(ws: seq<WatchedEntry>): (r: seq<string>)
    ensures |r| == |ws| && forall i :: 0 <= i < |ws| ==> r[i] == ws[i].imdbID
  {
    if ws == [] then [] else [ws[0].imdbID] + Ids(ws[1..])
  }

  /** Whether the selected movie is already on the list. */
  function IsWatched(ws: seq<WatchedEntry>, id: string): (b: bool)
    ensures b <==> exists i :: 0 <= i < |ws| && ws[i].imdbID == id
  {
    id in Ids(ws)
  }

  /** The position of the first entry with `id`, as a find over the list does it. */
  function FindFirst(ws: seq<WatchedEntry>, id: string): (k: Option<nat>)
    ensures k.Some? ==> k.value < |ws| && ws[k.value].imdbID == id
    ensures k.Some? ==> forall j :: 0 <= j < k.value ==> ws[j].imdbID != id
    ensures k.None? ==> forall j :: 0 <= j < |ws| ==> ws[j].imdbID != id
  {
    if ws == [] then None
    else if ws[0].imdbID == id then Some(0)
    else match FindFirst(ws[1..], id)
      case None => None
      case Some(k) => Some(k + 1)
  }

  /** The stored rating of the selected movie: that of its first entry, none when it is not on the list. */
  function WatchedUserRating(ws: seq<WatchedEntry>, id: string): (r: Option<nat>)
    ensures r.Some? <==> IsWatched(ws, id)
    ensures r.Some? ==> exists i :: 0 <= i < |ws| && ws[i].imdbID == id && ws[i].userRating == r.value
                                  && forall j :: 0 <= j < i ==> ws[j].imdbID != id
  {
    match FindFirst(ws, id)
    case None => None
    case Some(k) => Some(ws[k].userRating)
  }

  lemma {:induction false} CountIdConcat(a: seq<WatchedEntry>, b: seq<WatchedEntry>, id: string)
    ensures CountId(a + b, id) == CountId(a, id) + CountId(b, id)
    decreases |a|
  {
    if a == [] {
      assert a + b == b;
    } else {
      assert (a + b)[0] == a[0];
      assert (a + b)[1..] == a[1..] + b;
      CountIdConcat(a[1..], b, id);
    }
  }

  /** Appending does not de-duplicate: the new entry's id occurs once more than before. */
  lemma AppendKeepsDuplicates(ws: seq<WatchedEntry>, e: WatchedEntry)
    ensures CountId(Append(ws, e), e.imdbID) == CountId(ws, e.imdbID) + 1
  {
    CountIdConcat(ws, [e], e.imdbID);
    assert [e][1..] == [];
  }

  /** Deleting distributes over concatenation, so the kept entries stay in their order. */
  lemma {:induction false} DeleteConcat(a: seq<WatchedEntry>, b: seq<WatchedEntry>, id: string)
    ensures Delete(a + b, id) == Delete(a, id) + Delete(b, id)
    decreases |a|
  {
    if a == [] {
      assert a + b == b;
    } else {
      assert (a + b)[0] == a[0];
      assert (a + b)[1..] == a[1..] + b;
      DeleteConcat(a[1..], b, id);
    }
  }

  /** Deleting an id that is not on the list changes nothing. */
  lemma {:induction false} DeleteAbsent(ws: seq<WatchedEntry>, id: string)
    requires !IsWatched(ws, id)
    ensures Delete(ws, id) == ws
    decreases |ws|
  {
    if ws != [] {
      assert ws[0].imdbID != id;
      assert !IsWatched(ws[1..], id) by {
        forall i | 0 <= i < |ws[1..]| ensures ws[1..][i].imdbID != id {
          assert ws[1..][i] == ws[i + 1];
        }
      }
      DeleteAbsent(ws[1..], id);
      assert ws == [ws[0]] + ws[1..];
    }
  }

  /** Deleting the same id twice is deleting it once. */
  lemma {:induction false} DeleteIdempotent(ws: seq<WatchedEntry>, id: string)
    ensures Delete(Delete(ws, id), id) == Delete(ws, id)
  {
    DeleteAbsent(Delete(ws, id), id);
  }

  /** After deleting `id` the details view sees it as unwatched and with no stored rating. */
  lemma DeleteForgets(ws: seq<WatchedEntry>, id: string)
    ensures !IsWatched(Delete(ws, id), id) && WatchedUserRating(Delete(ws, id), id) == None
  {
  }

  /** Deleting `id` leaves the lookups of every other id as they were. */
  lemma {:induction false} DeleteKeepsOthers(ws: seq<WatchedEntry>, id: string, other: string)
    requires other != id
    ensures IsWatched(Delete(ws, id), other) == IsWatched(ws, other)
    ensures WatchedUserRating(Delete(ws, id), other) == WatchedUserRating(ws, other)
    decreases |ws|
  {
    if ws != [] {
      DeleteKeepsOthers(ws[1..], id, other);
      FindFirstTail(ws, other);
      if ws[0].imdbID != id {
        var r := Delete(ws, id);
        assert r == [ws[0]] + Delete(ws[1..], id);
        assert r[1..] == Delete(ws[1..], id);
        FindFirstTail(r, other);
      }
    }
  }

  /** The lookups of a non-empty list in terms of its head and its tail. */
  lemma FindFirstTail(ws: seq<WatchedEntry>, id: string)
    requires ws != []
    ensures IsWatched(ws, id) == (ws[0].imdbID == id || IsWatched(ws[1..], id))
    ensures WatchedUserRating(ws, id)
         == if ws[0].imdbID == id then Some(ws[0].userRating) else WatchedUserRating(ws[1..], id)
  {
  }

  /**
   * After appending `e`, its id is on the list; because the lookup takes the first
   * match, an id that was already there keeps its earlier stored rating.
   */
  lemma AppendLookup(ws: seq<WatchedEntry>, e: WatchedEntry, id: string)
    ensures IsWatched(Append(ws, e), id) == (IsWatched(ws, id) || e.imdbID == id)
    ensures WatchedUserRating(Append(ws, e), id)
         == if IsWatched(ws, id) then WatchedUserRating(ws, id)
            else if e.imdbID == id then Some(e.userRating)
            else None
  {
  }
}
