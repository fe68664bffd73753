/**
 * The player-card demo screen (src/components/PlayerCard.tsx): a position
 * filter with an 'ALL' wildcard, a single-selection toggle, the selected
 * player's detail lookup and the badge colours.
 */
module PlayerCard {
  import opened Wrappers
  import opened Fantasy

  const GrayBadge: string := "bg-gray-100 text-gray-800 border-gray-300"

  /** The card's badge colours; any string other than QB, RB, WR, TE gets gray. */
  function PositionColor(position: string): (r: string)
    ensures r == GrayBadge <==> position !in {"QB", "RB", "WR", "TE"}
  {
    if position == "QB" then "bg-red-100 text-red-800 border-red-300"
    else if position == "RB" then "bg-green-100 text-green-800 border-green-300"
    else if position == "WR" then "bg-blue-100 text-blue-800 border-blue-300"
    else if position == "TE" then "bg-yellow-100 text-yellow-800 border-yellow-300"
    else GrayBadge
  }

  /** `player.position === position`. */
  predicate PlaysAt(player: Player, position: string)
  {
    player.position.Name() == position
  }

  /** `players.filter(p => p.position === position)`. */
  function OfPosition(players: seq<Player>, position: string): (r: seq<Player>)
    ensures |r| <= |players|
  {
    if players == [] then []
    else (if PlaysAt(players[0], position) then [players[0]] else []) + OfPosition(players[1..], position)
  }

  /** The filter keeps a player exactly when it plays the position. */
  lemma {:induction false} OfPositionMembers(players: seq<Player>, position: string, p: Player)
    ensures p in OfPosition(players, position) <==> p in players && PlaysAt(p, position)
  {
    if players != [] {
      OfPositionMembers(players[1..], position, p);
      assert players == [players[0]] + players[1..];
    }
  }

  /** `filteredPlayers`: 'ALL' shows every player, any other value only that position. */
  function FilterPlayers(players: seq<Player>, filterPosition: string): seq<Player>
  {
    if filterPosition == "ALL" then players else OfPosition(players, filterPosition)
  }

  /** Filtering commutes with concatenation, so it keeps the original order. */
  lemma {:induction false} OfPositionConcat(a: seq<Player>, b: seq<Player>, position: string)
    ensures OfPosition(a + b, position) == OfPosition(a, position) + OfPosition(b, position)
  {
    if a == [] {
      assert a + b == b;
    } else {
      var head := if PlaysAt(a[0], position) then [a[0]] else [];
      assert (a + b)[0] == a[0];
      assert (a + b)[1..] == a[1..] + b;
      calc {
        OfPosition(a + b, position);
        head + OfPosition(a[1..] + b, position);
        { OfPositionConcat(a[1..], b, position); }
        head + (OfPosition(a[1..], position) + OfPosition(b, position));
        (head + OfPosition(a[1..], position)) + OfPosition(b, position);
        OfPosition(a, position) + OfPosition(b, position);
      }
    }
  }

  /**
   * Together with OfPositionConcat this pins the filter down: a single player
   * is kept exactly when its position equals the filter value.
   */
  lemma OfPositionSingle(p: Player, position: string)
    ensures OfPosition([p], position) == if PlaysAt(p, position) then [p] else []
  {
    assert [p][1..] == [];
  }

  /** 'ALL' returns the list unchanged. */
  lemma FilterAllIsIdentity(players: seq<Player>)
    ensures FilterPlayers(players, "ALL") == players
  {
  }

  /** A specific filter value keeps exactly the players of that position. */
  lemma FilterKeepsExactlyMatching(players: seq<Player>, filterPosition: string, p: Player)
    requires filterPosition != "ALL"
    ensures p in FilterPlayers(players, filterPosition) <==> p in players && p.position.Name() == filterPosition
  {
    OfPositionMembers(players, filterPosition, p);
  }

  lemma {:induction false} OfPositionIdempotent(players: seq<Player>, position: string)
    ensures OfPosition(OfPosition(players, position), position) == OfPosition(players, position)
  {
    if players != [] {
      var rest := OfPosition(players[1..], position);
      OfPositionIdempotent(players[1..], position);
      if PlaysAt(players[0], position) {
        var once := [players[0]] + rest;
        assert once[0] == players[0] && once[1..] == rest;
        assert OfPosition(once, position) == [players[0]] + OfPosition(rest, position);
      } else {
        assert OfPosition(players, position) == rest;
      }
    }
  }

  /** Filtering never lengthens the list, and filtering twice equals filtering once. */
  lemma FilterIdempotent(players: seq<Player>, filterPosition: string)
    ensures |FilterPlayers(players, filterPosition)| <= |players|
    ensures FilterPlayers(FilterPlayers(players, filterPosition), filterPosition) == FilterPlayers(players, filterPosition)
  {
    if filterPosition != "ALL" {
      OfPositionIdempotent(players, filterPosition);
    }
  }

  /** `find(p => p.id === id)`: the first player with that id, if any. */
  function FindById(players: seq<Player>, id: string): (r: Option<Player>)
    ensures r == None <==> forall k :: 0 <= k < |players| ==> players[k].id != id
    ensures r.Some? ==> exists k :: 0 <= k < |players| && players[k] == r.value && r.value.id == id
                          && forall j :: 0 <= j < k ==> players[j].id != id
  {
    if players == [] then None
    else if players[0].id == id then Some(players[0])
    else
      var r := FindById(players[1..], id);
      assert forall k :: 1 <= k < |players| ==> players[k] == players[1..][k - 1];
      r
  }

  /** Clicking a card: select it, or clear the selection if it was the selected one. */
  function Toggled(selected: Option<string>, id: string): Option<string>
  {
    if selected == Some(id) then None else Some(id)
  }

  /**
   * Two clicks on the same card restore the prior selection exactly when
   * nothing, or that same card, was selected before; after a different card,
   * two clicks leave nothing selected.
   */
  lemma ToggleTwice(selected: Option<string>, id: string)
    ensures Toggled(Toggled(selected, id), id) == selected <==> selected == None || selected == Some(id)
    ensures Toggled(Toggled(selected, id), id) == if selected == Some(id) then Some(id) else None
  {
  }

  /** The screen's state: the roster, the selected player's id and the filter value. */
  class PlayerCardDemo {
    const players: seq<Player>
    var selectedPlayer: Option<string>
    var filterPosition: string

    constructor (players: seq<Player>)
      ensures this.players == players
      ensures selectedPlayer == None && filterPosition == "ALL"
    {
      this.players := players;
      selectedPlayer := None;
      filterPosition := "ALL";
    }

    function FilteredPlayers(): seq<Player>
      reads this
    {
      FilterPlayers(players, filterPosition)
    }

    /** The card for `id` is drawn selected. */
    predicate IsSelected(id: string)
      reads this
    {
      selectedPlayer == Some(id)
    }

    /** The detail panel shows for a truthy id: the empty string hides it. */
    predicate ShowsSelectionInfo()
      reads this
    {
      selectedPlayer.Some? && selectedPlayer.value != ""
    }

    /**
     * The player the detail panel shows: none while the panel is hidden,
     * otherwise the first filtered player with the selected id, if any.
     */
    function SelectedDetail(): (r: Option<Player>)
      reads this
      ensures r.Some? ==> ShowsSelectionInfo() && r.value in FilteredPlayers() && r.value.id == selectedPlayer.value
      ensures ShowsSelectionInfo() ==> r == FindById(FilteredPlayers(), selectedPlayer.value)
      ensures ShowsSelectionInfo() ==>
        (r.Some? <==> exists k :: 0 <= k < |FilteredPlayers()| && FilteredPlayers()[k].id == selectedPlayer.value)
    {
      if ShowsSelectionInfo() then FindById(FilteredPlayers(), selectedPlayer.value) else None
    }

    method SelectFilter(position: string)
      modifies this
      ensures filterPosition == position && selectedPlayer == old(selectedPlayer)
    {
      filterPosition := position;
    }

    method ClickCard(id: string)
      modifies this
      ensures selectedPlayer == Toggled(old(selectedPlayer), id)
      ensures filterPosition == old(filterPosition)
    {
      selectedPlayer := if selectedPlayer == Some(id) then None else Some(id);
    }

    method ClearSelection()
      modifies this
      ensures selectedPlayer == None && filterPosition == old(filterPosition)
      ensures forall id :: !IsSelected(id)
    {
      selectedPlayer := None;
    }
  }

  /**
   * With a position filter on, a selection whose player has another position
   * finds no detail: the lookup searches the filtered list only.
   */
  lemma FilteredOutSelectionHasNoDetail(players: seq<Player>, filterPosition: string, id: string)
    requires filterPosition != "ALL"
    requires forall k :: 0 <= k < |players| && players[k].id == id ==> players[k].position.Name() != filterPosition
    ensures FindById(FilterPlayers(players, filterPosition), id) == None
  {
    var f := FilterPlayers(players, filterPosition);
    forall k | 0 <= k < |f| ensures f[k].id != id {
      var p := f[k];
      OfPositionMembers(players, filterPosition, p);
      var j :| 0 <= j < |players| && players[j] == p;
    }
  }
}
