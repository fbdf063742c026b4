/**
 * The admin game list: each game's status is toggled between active and
 * paused by its button, and clicking a card selects the game whose
 * settings panel is shown.
 */
module GameManagement {
  import opened Wrappers
  import opened Seqs

  datatype GameConfig = GameConfig(id: string, name: string, status: string, plays: int,
                                   winRate: real, houseEdge: real, rtp: real)

  /** The status the toggle button moves a game to. */
  function NextStatus(status: string): (s: string)
    ensures s == "active" || s == "paused"
    ensures s == "paused" <==> status == "active"
  {
    if status == "active" then "paused" else "active"
  }

  function Flip(g: GameConfig, gameId: string): GameConfig {
    if g.id == gameId then g.(status := NextStatus(g.status)) else g
  }

  /**
   * handleStatusChange in GameManagement.tsx: the games with the id get the
   * next status; every other game, every other field and the order stay.
   */
  function ToggleStatus(games: seq<GameConfig>, gameId: string): (r: seq<GameConfig>)
    ensures |r| == |games|
    ensures forall i :: 0 <= i < |r| && games[i].id != gameId ==> r[i] == games[i]
    ensures forall i :: 0 <= i < |r| && games[i].id == gameId ==>
      r[i].status == NextStatus(games[i].status) && r[i] == games[i].(status := r[i].status)
  {
    seq(|games|, i requires 0 <= i < |games| => Flip(games[i], gameId))
  }

  /** Every toggled game ends up either active or paused. */
  lemma ToggledStatusIsActiveOrPaused(games: seq<GameConfig>, gameId: string)
    ensures forall i :: 0 <= i < |games| && games[i].id == gameId ==>
      ToggleStatus(games, gameId)[i].status in {"active", "paused"}
  {
  }

  /** Toggling the same game twice restores the list when that game was active or paused. */
  lemma ToggleTwice(games: seq<GameConfig>, gameId: string)
    requires forall i :: 0 <= i < |games| && games[i].id == gameId ==>
      games[i].status == "active" || games[i].status == "paused"
    ensures ToggleStatus(ToggleStatus(games, gameId), gameId) == games
  {
    var r := ToggleStatus(ToggleStatus(games, gameId), gameId);
    forall i | 0 <= i < |games| ensures r[i] == games[i] {
      if games[i].id == gameId {
        assert ToggleStatus(games, gameId)[i].id == gameId;
      }
    }
  }

  /** Any other status does not come back: two toggles leave it paused. */
  lemma ToggleTwiceOtherStatus(games: seq<GameConfig>, gameId: string, i: nat)
    requires i < |games| && games[i].id == gameId
    requires games[i].status != "active" && games[i].status != "paused"
    ensures ToggleStatus(ToggleStatus(games, gameId), gameId)[i].status == "paused"
  {
    assert ToggleStatus(games, gameId)[i].id == gameId;
  }

  function GameId(g: GameConfig): string { g.id }

  /** currentGame: the first game whose id is the selected one; None when nothing is selected or nothing matches. */
  function CurrentGame(games: seq<GameConfig>, selected: Option<string>): (g: Option<GameConfig>)
    ensures g.Some? ==> selected == Some(g.value.id)
    ensures g.Some? ==> exists i :: 0 <= i < |games| && games[i] == g.value && forall j :: 0 <= j < i ==> games[j].id != g.value.id
    ensures g.None? <==> selected.None? || forall i :: 0 <= i < |games| ==> games[i].id != selected.value
  {
    if selected.None? then None
    else match FirstIndex(games, GameId, selected.value)
      case None => None
      case Some(i) => Some(games[i])
  }

  /** The settings panel follows a toggle: it shows the selected game with its new status. */
  lemma CurrentGameAfterToggle(games: seq<GameConfig>, gameId: string, selected: Option<string>)
    ensures CurrentGame(ToggleStatus(games, gameId), selected)
         == if CurrentGame(games, selected).Some? then Some(Flip(CurrentGame(games, selected).value, gameId)) else None
  {
    var r := ToggleStatus(games, gameId);
    assert forall i :: 0 <= i < |r| ==> GameId(r[i]) == GameId(games[i]);
    if selected.Some? {
      var a := FirstIndex(games, GameId, selected.value);
      var b := FirstIndex(r, GameId, selected.value);
      assert a.Some? <==> b.Some?;
    }
  }

  /** A card is highlighted exactly when it is the selected game. */
  predicate Highlighted(selected: Option<string>, g: GameConfig) {
    selected == Some(g.id)
  }
}
