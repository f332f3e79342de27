/**
 * The recent-games list: one card per game, each with a "view" action that
 * hands the game's id to a callback and a "details" action that expands the
 * card. The list remembers a single expanded game id.
 */
module GameList {
  import opened Wrappers
  import opened Game
  import opened ApiSchemas

  /** One rendered card: the game it shows and whether its details are open. */
  datatype Card = Card(game: PlayerGame, expanded: bool)

  /**
   * The expanded id after the details action of game `id`: collapsed if that
   * game was the expanded one, that game otherwise.
   */
  function Toggled(expanded: Option<string>, id: string): (next: Option<string>)
    ensures next.None? <==> expanded == Some(id)
    ensures next.Some? ==> next.value == id
  {
    if expanded == Some(id) then None else Some(id)
  }

  /** Toggling the same game twice from nothing expanded, or from that game expanded, is no change. */
  lemma ToggleTwice(expanded: Option<string>, id: string)
    requires expanded.None? || expanded == Some(id)
    ensures Toggled(Toggled(expanded, id), id) == expanded
  {
  }

  /** From another game expanded, toggling `id` twice collapses everything instead. */
  lemma ToggleTwiceFromOther(other: string, id: string)
    requires other != id
    ensures Toggled(Toggled(Some(other), id), id) == None
  {
  }

  class GameList {
    var games: seq<PlayerGame>
    /** Whether an `onViewGame` callback is installed. */
    var hasViewCallback: bool
    var expandedGameId: Option<string>

    /** A list with nothing expanded. */
    constructor (games: seq<PlayerGame>, hasViewCallback: bool)
      ensures this.games == games && this.hasViewCallback == hasViewCallback
      ensures expandedGameId.None?
    {
      this.games := games;
      this.hasViewCallback := hasViewCallback;
      expandedGameId := None;
    }

    /** The details action of game `gameId`. */
    method Toggle(gameId: string)
      modifies this`expandedGameId
      ensures expandedGameId == Toggled(old(expandedGameId), gameId)
    {
      expandedGameId := if expandedGameId == Some(gameId) then None else Some(gameId);
    }

    /** Whether the details of `game` are shown. */
    predicate IsExpanded(game: PlayerGame)
      reads this
    {
      expandedGameId == Some(game.gameId)
    }

    /** The cards `render` produces: one per game, in input order. */
    function Render(): (cards: seq<Card>)
      reads this
      ensures |cards| == |games|
      ensures forall i :: 0 <= i < |games| ==>
        cards[i].game == games[i] && (cards[i].expanded <==> expandedGameId == Some(games[i].gameId))
    {
      seq(|games|, i requires 0 <= i < |games| reads this => Card(games[i], IsExpanded(games[i])))
    }

    /**
     * The view action of card `i`: the id handed to the callback (None when
     * no callback is installed). It leaves the list as it is.
     */
    method ViewGame(i: nat) returns (passed: Option<string>)
      requires i < |games|
      ensures passed.Some? <==> hasViewCallback
      ensures passed.Some? ==> passed.value == games[i].gameId && passed.value == Render()[i].game.gameId
    {
      passed := if hasViewCallback then Some(games[i].gameId) else None;
    }
  }

  /**
   * At most one game is expanded: every expanded card carries the one
   * remembered id, so with distinct game ids at most one card is expanded.
   */
  lemma AtMostOneExpanded(list: GameList)
    ensures forall i, j :: 0 <= i < |list.games| && 0 <= j < |list.games| ==>
      (list.Render()[i].expanded && list.Render()[j].expanded ==> list.games[i].gameId == list.games[j].gameId)
    ensures (forall i, j :: 0 <= i < j < |list.games| ==> list.games[i].gameId != list.games[j].gameId) ==>
      forall i, j :: 0 <= i < |list.games| && 0 <= j < |list.games| ==>
        (list.Render()[i].expanded && list.Render()[j].expanded ==> i == j)
  {
  }
}
