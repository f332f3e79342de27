/**
 * The stats tree view: it holds a statistics tree and a (visibility, mode,
 * difficulty) selection, shows the leaf at that path, and re-renders only
 * when a selector actually changes.
 */
module PlayerStatsTree {
  import opened Wrappers
  import opened Game
  import opened StatsSchemas
  import opened ApiSchemas

  /** A win/loss ratio as an exact fraction `num / den`. */
  datatype Ratio = Ratio(num: int, den: int)

  /** The summary grid the view renders above the tables. */
  datatype Summary = Summary(wins: int, losses: int, winLossRatio: Ratio, total: int, stats: Option<PlayerStats>)

  /**
   * The ratio shown for a leaf: the number of wins itself when there are no
   * losses, otherwise wins divided by losses.
   */
  function WinLossRatio(leaf: PlayerStatsLeaf): (r: Ratio)
    ensures r.den != 0
    ensures leaf.losses == 0 ==> r.num == leaf.wins && r.den == 1
    ensures leaf.losses != 0 ==> r.num * leaf.losses == leaf.wins * r.den
  {
    if leaf.losses == 0 then Ratio(leaf.wins, 1) else Ratio(leaf.wins, leaf.losses)
  }

  class PlayerStatsTreeView {
    var statsTree: Option<PlayerStatsTree>
    var visibility: GameType
    var selectedMode: GameMode
    var selectedDifficulty: Difficulty
    /** How many re-renders the view has asked for. */
    var updateRequests: nat

    /** A fresh view: no tree yet, selection (Public, FFA, Medium). */
    constructor ()
      ensures statsTree.None?
      ensures visibility == Public && selectedMode == FFA && selectedDifficulty == Medium
      ensures updateRequests == 0
    {
      statsTree := None;
      visibility := Public;
      selectedMode := FFA;
      selectedDifficulty := Medium;
      updateRequests := 0;
    }

    /**
     * `tree[visibility][selectedMode][selectedDifficulty]` when all three
     * levels are present, None otherwise (also when there is no tree).
     */
    function GetSelectedLeaf(): (r: Option<PlayerStatsLeaf>)
      reads this
      ensures r.Some? <==>
        && statsTree.Some?
        && visibility in statsTree.value
        && selectedMode in ModeKeys(statsTree.value[visibility])
        && selectedDifficulty in FindMode(statsTree.value[visibility], selectedMode).value
      ensures r.Some? ==> r.value == FindMode(statsTree.value[visibility], selectedMode).value[selectedDifficulty]
    {
      match TypeNode(statsTree, visibility)
      case None => None
      case Some(typeNode) =>
        match FindMode(typeNode, selectedMode)
        case None => None
        case Some(modeNode) =>
          if selectedDifficulty in modeNode then Some(modeNode[selectedDifficulty]) else None
    }

    /** The selected leaf's stats: None when there is no leaf or the leaf carries no stats. */
    function GetDisplayedStats(): (r: Option<PlayerStats>)
      reads this
      ensures r.None? <==> GetSelectedLeaf().None? || GetSelectedLeaf().value.stats.None?
      ensures r.Some? ==> r == GetSelectedLeaf().value.stats
    {
      var leaf := GetSelectedLeaf();
      if leaf.None? || leaf.value.stats.None? then None else leaf.value.stats
    }

    /**
     * What `render` shows: nothing at all when no leaf is selected, otherwise
     * the leaf's counters, its win/loss ratio and its stats for the tables.
     */
    function Render(): (r: Option<Summary>)
      reads this
      ensures r.None? <==> GetSelectedLeaf().None?
      ensures r.Some? ==>
        var leaf := GetSelectedLeaf().value;
        && r.value.wins == leaf.wins && r.value.losses == leaf.losses && r.value.total == leaf.total
        && r.value.winLossRatio == WinLossRatio(leaf)
        && r.value.stats == GetDisplayedStats()
    {
      match GetSelectedLeaf()
      case None => None
      case Some(leaf) => Some(Summary(leaf.wins, leaf.losses, WinLossRatio(leaf), leaf.total, GetDisplayedStats()))
    }

    /** Selects a visibility; a re-render is requested only if it changed. */
    method SetGameType(t: GameType)
      modifies this`visibility, this`updateRequests
      ensures visibility == t
      ensures updateRequests == old(updateRequests) + (if old(visibility) == t then 0 else 1)
      ensures old(visibility) == t ==> unchanged(this)
    {
      if visibility != t {
        visibility := t;
        updateRequests := updateRequests + 1;
      }
    }

    /** Selects a mode; a re-render is requested only if it changed. */
    method SetMode(m: GameMode)
      modifies this`selectedMode, this`updateRequests
      ensures selectedMode == m
      ensures updateRequests == old(updateRequests) + (if old(selectedMode) == m then 0 else 1)
      ensures old(selectedMode) == m ==> unchanged(this)
    {
      if selectedMode != m {
        selectedMode := m;
        updateRequests := updateRequests + 1;
      }
    }

    /** Selects a difficulty; a re-render is requested only if it changed. */
    method SetDifficulty(d: Difficulty)
      modifies this`selectedDifficulty, this`updateRequests
      ensures selectedDifficulty == d
      ensures updateRequests == old(updateRequests) + (if old(selectedDifficulty) == d then 0 else 1)
      ensures old(selectedDifficulty) == d ==> unchanged(this)
    {
      if selectedDifficulty != d {
        selectedDifficulty := d;
        updateRequests := updateRequests + 1;
      }
    }
  }
}
