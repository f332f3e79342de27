/**
 * The player-info modal: the (visibility, mode, difficulty) selection with
 * its "no data" warning, the load error, the loaded stats tree and recent
 * games, and the URL a "view game" action navigates to.
 */
module PlayerInfoModal {
  import opened Wrappers
  import opened Game
  import opened ApiSchemas
  import opened UriComponent

  /** Translation key of the warning shown when the selection has no data. */
  const NoData := "player_modal.no_data"

  /** Translation key of the error shown when loading the player failed. */
  const LoadFailed := "player_modal.error.load"

  /** The fragment that asks the application to join a game. */
  function JoinHash(gameId: string): (hash: string)
    ensures |hash| >= 6 && hash[..6] == "#join="
    ensures Decode(hash[6..]) == Some(gameId)
    ensures forall i :: 6 <= i < |hash| ==> IsUnreserved(hash[i]) || hash[i] == '%'
  {
    var encoded := Encode(gameId);
    DecodeEncode(gameId);
    assert ("#join=" + encoded)[6..] == encoded;
    "#join=" + encoded
  }

  /**
   * The URL "view game" pushes: the current path and query, then the join
   * fragment. The path and query come from the browser's location.
   */
  function ViewGameUrl(path: string, search: string, gameId: string): (url: string)
    ensures |url| == |path| + |search| + |JoinHash(gameId)|
    ensures url[..|path|] == path
    ensures url[|path|..|path| + |search|] == search
    ensures url[|path| + |search|..] == JoinHash(gameId)
  {
    path + search + JoinHash(gameId)
  }

  class PlayerInfoModal {
    var userMeResponse: Option<UserMeResponse>
    var visibility: GameType
    var loadError: Option<string>
    var selectedMode: GameMode
    var selectedDifficulty: Difficulty
    var warningMessage: Option<string>
    var statsTree: Option<PlayerStatsTree>
    var recentGames: seq<PlayerGame>
    /** The player ids the modal has asked the API for, oldest first. */
    var requestedIds: seq<string>

    /** The only messages the modal ever shows. */
    ghost predicate Valid()
      reads this
    {
      && (warningMessage.None? || warningMessage == Some(NoData))
      && (loadError.None? || loadError == Some(LoadFailed))
    }

    /** The modal as first created: nothing loaded, selection (Public, FFA, Medium). */
    constructor ()
      ensures Valid()
      ensures userMeResponse.None? && statsTree.None? && recentGames == [] && requestedIds == []
      ensures warningMessage.None? && loadError.None?
      ensures visibility == Public && selectedMode == FFA && selectedDifficulty == Medium
    {
      userMeResponse := None;
      visibility := Public;
      loadError := None;
      selectedMode := FFA;
      selectedDifficulty := Medium;
      warningMessage := None;
      statsTree := None;
      recentGames := [];
      requestedIds := [];
    }

    /** The modes listed under visibility `t`, in the tree's key order (none without a tree). */
    function ModesUnder(t: GameType): (modes: seq<GameMode>)
      reads this
      ensures |modes| > 0 ==> statsTree.Some? && t in statsTree.value
    {
      match TypeNode(statsTree, t)
      case None => []
      case Some(node) => ModeKeys(node)
    }

    /**
     * Selects a visibility. If modes are listed under it and the current mode
     * is not one of them, the mode falls back to the first listed mode.
     */
    method SetGameType(t: GameType)
      requires Valid()
      modifies this`visibility, this`selectedMode
      ensures Valid()
      ensures visibility == t
      ensures var modes := ModesUnder(t);
        selectedMode == if |modes| > 0 && old(selectedMode) !in modes then modes[0] else old(selectedMode)
      ensures |ModesUnder(t)| > 0 ==> ModeNodeAt(statsTree, t, selectedMode).Some?
    {
      visibility := t;
      var modes := ModesUnder(visibility);
      if |modes| > 0 {
        if selectedMode !in modes {
          selectedMode := modes[0];
        }
      }
      assert |modes| > 0 ==> selectedMode in modes;
    }

    /**
     * Selects a mode. The warning is set exactly when the mode is not listed
     * under the current visibility (the difficulty is not looked at).
     */
    method SetMode(m: GameMode)
      requires Valid()
      modifies this`selectedMode, this`warningMessage
      ensures Valid()
      ensures selectedMode == m
      ensures warningMessage == (if m in ModesUnder(visibility) then None else Some(NoData))
    {
      selectedMode := m;
      var typeNode := TypeNode(statsTree, visibility);
      if typeNode.None? || FindMode(typeNode.value, m).None? {
        warningMessage := Some(NoData);
        return;
      }
      warningMessage := None;
    }

    /**
     * Selects a difficulty. The warning is cleared exactly when the tree has
     * a leaf at (visibility, selected mode, d).
     */
    method SetDifficulty(d: Difficulty)
      requires Valid()
      modifies this`selectedDifficulty, this`warningMessage
      ensures Valid()
      ensures selectedDifficulty == d
      ensures warningMessage.None? <==>
        && selectedMode in ModesUnder(visibility)
        && d in FindMode(statsTree.value[visibility], selectedMode).value
    {
      selectedDifficulty := d;
      var modeNode := ModeNodeAt(statsTree, visibility, selectedMode);
      if modeNode.None? || d !in modeNode.value {
        warningMessage := Some(NoData);
      } else {
        warningMessage := None;
      }
    }

    /** Opening the modal clears a previous load error and nothing else. */
    method Open()
      requires Valid()
      modifies this`loadError
      ensures Valid()
      ensures loadError.None?
    {
      loadError := None;
    }

    /**
     * Loads player `playerId`; `fetched` is what the API call produced (None
     * for a falsy result or a thrown error). A failure sets the load error
     * and keeps the previous games and tree; a success installs them.
     */
    method LoadFromApi(playerId: string, fetched: Option<PlayerIdResponse>)
      requires Valid()
      modifies this`loadError, this`recentGames, this`statsTree, this`requestedIds
      ensures Valid()
      ensures requestedIds == old(requestedIds) + [playerId]
      ensures fetched.None? ==>
        loadError == Some(LoadFailed) && recentGames == old(recentGames) && statsTree == old(statsTree)
      ensures fetched.Some? ==>
        loadError.None? && recentGames == fetched.value.games && statsTree == Some(fetched.value.stats)
    {
      loadError := None;
      requestedIds := requestedIds + [playerId];
      if fetched.None? {
        loadError := Some(LoadFailed);
        return;
      }
      recentGames := fetched.value.games;
      statsTree := Some(fetched.value.stats);
    }

    /**
     * The signed-in user's identity arrived. With a non-empty public id the
     * player is loaded (with outcome `fetched`); otherwise every field goes
     * back to its default.
     */
    method OnUserMe(response: Option<UserMeResponse>, fetched: Option<PlayerIdResponse>)
      requires Valid()
      modifies this
      ensures Valid()
      ensures userMeResponse == response
      ensures response.None? || response.value.player.publicId == "" ==>
        && statsTree.None? && recentGames == [] && warningMessage.None? && loadError.None?
        && visibility == Public && selectedMode == FFA && selectedDifficulty == Medium
        && requestedIds == old(requestedIds)
      ensures response.Some? && response.value.player.publicId != "" ==>
        && requestedIds == old(requestedIds) + [response.value.player.publicId]
        && visibility == old(visibility) && selectedMode == old(selectedMode)
        && selectedDifficulty == old(selectedDifficulty) && warningMessage == old(warningMessage)
        && (fetched.None? ==> loadError == Some(LoadFailed) && recentGames == old(recentGames) && statsTree == old(statsTree))
        && (fetched.Some? ==> loadError.None? && recentGames == fetched.value.games && statsTree == Some(fetched.value.stats))
    {
      userMeResponse := response;
      if response.Some? && response.value.player.publicId != "" {
        LoadFromApi(response.value.player.publicId, fetched);
      } else {
        statsTree := None;
        recentGames := [];
        warningMessage := None;
        loadError := None;
        visibility := Public;
        selectedMode := FFA;
        selectedDifficulty := Medium;
      }
    }
  }
}
