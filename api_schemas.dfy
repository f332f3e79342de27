/**
 * The shapes of the player API's responses: the sparse statistics tree
 * (visibility -> mode -> difficulty -> leaf), the recent-game rows and the
 * signed-in user's identity.
 */
module ApiSchemas {
  import opened Wrappers
  import opened Game
  import opened StatsSchemas

  /** One (visibility, mode, difficulty) record of the tree. */
  datatype PlayerStatsLeaf = PlayerStatsLeaf(wins: int, losses: int, total: int, stats: Option<PlayerStats>)

  /** The difficulty level: a partial record keyed by difficulty. */
  type DifficultyNode = map<Difficulty, PlayerStatsLeaf>

  /** One key of the mode level together with its subtree. */
  datatype ModeEntry = ModeEntry(mode: GameMode, node: DifficultyNode)

  /**
   * The mode level: a partial record keyed by mode. It is a sequence because
   * the modal falls back to the FIRST key in the object's own key order.
   */
  type ModeNode = seq<ModeEntry>

  /** The whole tree: a partial record keyed by visibility. */
  type PlayerStatsTree = map<GameType, ModeNode>

  /** One row of the recent-games list. Map names and datetimes are kept as strings. */
  datatype PlayerGame = PlayerGame(
    gameId: string,
    start: string,
    mode: GameMode,
    gameType: GameType,
    gameMap: string,
    difficulty: Difficulty,
    clientId: Option<string>)

  /** The successful response of the player-by-id endpoint. */
  datatype PlayerIdResponse = PlayerIdResponse(createdAt: string, games: seq<PlayerGame>, stats: PlayerStatsTree)

  datatype DiscordUser = DiscordUser(id: string, username: string)

  datatype PlayerIdentity = PlayerIdentity(publicId: string)

  /** The signed-in user's "me" response. */
  datatype UserMeResponse = UserMeResponse(user: DiscordUser, player: PlayerIdentity)

  /** The keys of a mode level, in key order (`Object.keys`). */
  function ModeKeys(node: ModeNode): (keys: seq<GameMode>)
    ensures |keys| == |node|
    ensures forall i :: 0 <= i < |node| ==> keys[i] == node[i].mode
  {
    if node == [] then [] else [node[0].mode] + ModeKeys(node[1..])
  }

  /**
   * `node[m]`: the subtree under the first entry whose key is `m`, or None
   * when the mode level has no such key.
   */
  function FindMode(node: ModeNode, m: GameMode): (r: Option<DifficultyNode>)
    ensures r.Some? <==> m in ModeKeys(node)
    ensures forall i :: 0 <= i < |node| && node[i].mode == m && (forall j :: 0 <= j < i ==> node[j].mode != m) ==>
      r == Some(node[i].node)
  {
    if node == [] then None
    else if node[0].mode == m then Some(node[0].node)
    else
      var r := FindMode(node[1..], m);
      assert ModeKeys(node) == [node[0].mode] + ModeKeys(node[1..]);
      assert forall i :: 1 <= i < |node| ==> node[i] == node[1..][i - 1];
      r
  }

  /** `tree?.[t]`: the mode level of one visibility, if the tree and that key are present. */
  function TypeNode(tree: Option<PlayerStatsTree>, t: GameType): Option<ModeNode> {
    if tree.Some? && t in tree.value then Some(tree.value[t]) else None
  }

  /** `tree?.[t]?.[m]`: the difficulty level under one visibility and mode, if present. */
  function ModeNodeAt(tree: Option<PlayerStatsTree>, t: GameType, m: GameMode): Option<DifficultyNode> {
    match TypeNode(tree, t)
    case None => None
    case Some(node) => FindMode(node, m)
  }
}
