/**
 * Favorite and pinned game lists (app.js `toggleFavorite`, `togglePin`).
 * Each handler reads the user's whole list, edits it in memory and writes the
 * whole list back; the store is abstracted to the value read and the write made.
 */
module Preferences {
  import opened Wrappers
  import JsText

  type GameId = string

  /** The most games a user may pin. */
  const MaxPinned: nat := 3

  /** `list.indexOf(game)`: the position of the first occurrence, `None` where JavaScript gives -1. */
  function IndexOf(list: seq<GameId>, game: GameId): (r: Option<nat>)
    ensures r.None? <==> game !in list
    ensures r.Some? ==> r.value < |list| && list[r.value] == game && game !in list[..r.value]
  {
    if list == [] then None
    else if list[0] == game then Some(0)
    else match IndexOf(list[1..], game)
      case None => None
      case Some(i) =>
        assert list[..i + 1] == [list[0]] + list[1..][..i];
        Some(i + 1)
  }

  /** The in-memory edit shared by both toggles: splice out the first occurrence, or push at the end. */
  function Toggled(list: seq<GameId>, game: GameId): (r: seq<GameId>)
    ensures game in list ==> |r| == |list| - 1 && multiset(r) == multiset(list) - multiset{game}
    ensures game in list ==>
      exists i :: (&& 0 <= i < |list| && list[i] == game && game !in list[..i]
                   && r == list[..i] + list[i + 1..])
    ensures game !in list ==> r == list + [game]
  {
    match IndexOf(list, game)
    case None => list + [game]
    case Some(i) =>
      assert list == list[..i] + [game] + list[i + 1..];
      list[..i] + list[i + 1..]
  }

  /** A list with no game listed twice. */
  predicate Distinct(list: seq<GameId>) {
    forall i, j :: 0 <= i < j < |list| ==> list[i] != list[j]
  }

  /** `toggleFavorite`: nothing without a session (a null or empty uid); otherwise the stored list (absent read as empty) toggled. */
  function ToggleFavorite(uid: Option<string>, stored: Option<seq<GameId>>, game: GameId): (r: Action<seq<GameId>>)
    ensures r.NoWrite? <==> !JsText.Truthy(uid)
    ensures r.Write? && game in stored.GetOr([]) ==>
      |r.written| == |stored.GetOr([])| - 1 && multiset(r.written) == multiset(stored.GetOr([])) - multiset{game}
    ensures r.Write? && game !in stored.GetOr([]) ==> r.written == stored.GetOr([]) + [game]
    ensures r.Write? ==> (game in r.written <==> game !in stored.GetOr([])) || !Distinct(stored.GetOr([]))
    ensures r.Write? && Distinct(stored.GetOr([])) ==> Distinct(r.written)
    ensures r.Write? ==> r.written == Toggled(stored.GetOr([]), game)
  {
    if !JsText.Truthy(uid) then NoWrite
    else
      var favorites := stored.GetOr([]);
      ToggledKeepsDistinct(favorites, game);
      Write(Toggled(favorites, game))
  }

  /** On a list without repeats, toggling flips membership of the game and keeps the list repeat-free. */
  lemma ToggledKeepsDistinct(list: seq<GameId>, game: GameId)
    ensures Distinct(list) ==> Distinct(Toggled(list, game)) && (game in Toggled(list, game) <==> game !in list)
  {
    if Distinct(list) {
      var r := Toggled(list, game);
      match IndexOf(list, game)
      case None =>
      case Some(i) =>
        assert r == list[..i] + list[i + 1..];
        forall a, b | 0 <= a < b < |r|
          ensures r[a] != r[b]
        {
          var a' := if a < i then a else a + 1;
          var b' := if b < i then b else b + 1;
          assert r[a] == list[a'] && r[b] == list[b'];
        }
    }
  }

  /** For a game not yet a favorite, toggling twice restores the original list. */
  lemma {:induction false} FavoriteToggleTwice(uid: string, favorites: seq<GameId>, game: GameId)
    requires uid != "" && game !in favorites
    ensures var once := ToggleFavorite(Some(uid), Some(favorites), game);
      once.Write? && ToggleFavorite(Some(uid), Some(once.written), game) == Write(favorites)
  {
    var once := favorites + [game];
    assert once[|favorites|] == game;
    assert once[..|favorites|] == favorites && once[|favorites| + 1..] == [];
    assert Toggled(once, game) == favorites;
  }

  /** `togglePin`: like a favorite toggle, but adding to a full list is refused with no write. */
  function TogglePin(uid: Option<string>, stored: Option<seq<GameId>>, game: GameId): (r: Action<seq<GameId>>)
    ensures !JsText.Truthy(uid) ==> r.NoWrite?
    ensures JsText.Truthy(uid) && game in stored.GetOr([]) ==> r.Write? && |r.written| == |stored.GetOr([])| - 1
    ensures r.NoWrite? <==> !JsText.Truthy(uid) || (game !in stored.GetOr([]) && |stored.GetOr([])| >= MaxPinned)
    ensures r.Write? && |stored.GetOr([])| <= MaxPinned ==> |r.written| <= MaxPinned
    ensures r.Write? && game !in stored.GetOr([]) ==> r.written == stored.GetOr([]) + [game]
    ensures r.Write? ==> r.written == Toggled(stored.GetOr([]), game)
  {
    if !JsText.Truthy(uid) then NoWrite
    else
      var pinned := stored.GetOr([]);
      if game !in pinned && |pinned| >= MaxPinned then NoWrite
      else Write(Toggled(pinned, game))
  }

  /** The stored pin list after a signed-in user toggles each game of `games` in turn. */
  function PinsAfter(uid: string, pinned: seq<GameId>, games: seq<GameId>): seq<GameId>
    decreases |games|
  {
    if games == [] then pinned
    else
      var next := match TogglePin(Some(uid), Some(pinned), games[0])
        case NoWrite => pinned
        case Write(list) => list;
      PinsAfter(uid, next, games[1..])
  }

  /** No sequence of pin toggles takes a list of at most three games past three. */
  lemma {:induction false} PinsStayBounded(uid: string, pinned: seq<GameId>, games: seq<GameId>)
    requires |pinned| <= MaxPinned
    ensures |PinsAfter(uid, pinned, games)| <= MaxPinned
    decreases |games|
  {
    if games != [] {
      var next := match TogglePin(Some(uid), Some(pinned), games[0])
        case NoWrite => pinned
        case Write(list) => list;
      PinsStayBounded(uid, next, games[1..]);
    }
  }

  /** The rejected fourth pin of the worked example: `[a, b, c]` and `d` leaves the list as it was. */
  lemma FullPinListRejects(uid: string)
    ensures TogglePin(Some(uid), Some(["a", "b", "c"]), "d") == NoWrite
    ensures PinsAfter(uid, ["a", "b", "c"], ["d"]) == ["a", "b", "c"]
  {
  }
}
