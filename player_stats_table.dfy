/**
 * The statistics tables shown for one leaf: which counter of which category
 * each cell displays. A counter that is missing at any step (no stats, no
 * category, no key, index past the end of the vector) shows as 0.
 */
module PlayerStatsTable {
  import opened Wrappers
  import opened StatsSchemas

  /** One table row: the key it is labelled with and its cells, left to right. */
  datatype Row = Row(key: string, cells: seq<int>)

  /** Everything the table component renders. */
  datatype Tables = Tables(
    buildings: seq<Row>,
    boats: seq<Row>,
    bombs: seq<Row>,
    attacks: seq<int>,
    gold: seq<int>)

  /** `v?.[i] ?? 0n`. */
  function Cell(v: Option<Counters>, i: nat): int {
    if v.Some? && i < |v.value| then v.value[i] else 0
  }

  /** `category?.[key]`. */
  function Entry(category: Option<KeyedCounters>, key: string): Option<Counters> {
    if category.Some? && key in category.value then Some(category.value[key]) else None
  }

  /** `stats?.units`, `stats?.boats`, ...: one category of possibly missing stats. */
  function UnitsOf(stats: Option<PlayerStats>): Option<KeyedCounters> {
    if stats.Some? then stats.value.units else None
  }

  function BoatsOf(stats: Option<PlayerStats>): Option<KeyedCounters> {
    if stats.Some? then stats.value.boats else None
  }

  function BombsOf(stats: Option<PlayerStats>): Option<KeyedCounters> {
    if stats.Some? then stats.value.bombs else None
  }

  function AttacksOf(stats: Option<PlayerStats>): Option<Counters> {
    if stats.Some? then stats.value.attacks else None
  }

  function GoldOf(stats: Option<PlayerStats>): Option<Counters> {
    if stats.Some? then stats.value.gold else None
  }

  /**
   * The recorded value of `category[key][i]`, or 0 when the category, the
   * key or the index is missing: the reading rule every keyed cell follows.
   */
  ghost function Recorded(category: Option<KeyedCounters>, key: string, i: nat): int {
    if category.None? || key !in category.value || i >= |category.value[key]| then 0
    else category.value[key][i]
  }

  /** The building table: one row per key, cells (built, destroyed, captured, lost). */
  function BuildingRows(stats: Option<PlayerStats>, keys: seq<string>): (rows: seq<Row>)
    ensures |rows| == |keys|
    ensures forall r :: 0 <= r < |keys| ==>
      rows[r].key == keys[r] && |rows[r].cells| == 4 &&
      forall i :: 0 <= i < 4 ==> rows[r].cells[i] == Recorded(UnitsOf(stats), keys[r], i)
  {
    seq(|keys|, r requires 0 <= r < |keys| =>
      var v := Entry(UnitsOf(stats), keys[r]);
      Row(keys[r], [Cell(v, 0), Cell(v, 1), Cell(v, 2), Cell(v, 3)]))
  }

  /**
   * The boat table: one row per key, cells (sent, destroyed, arrived), read
   * from indices 0, 3 and 1 of the boat vector. Index 2 (captured) is not shown.
   */
  function BoatRows(stats: Option<PlayerStats>, keys: seq<string>): (rows: seq<Row>)
    ensures |rows| == |keys|
    ensures forall r :: 0 <= r < |keys| ==>
      rows[r].key == keys[r] &&
      rows[r].cells == [Recorded(BoatsOf(stats), keys[r], 0),
                        Recorded(BoatsOf(stats), keys[r], 3),
                        Recorded(BoatsOf(stats), keys[r], 1)]
  {
    seq(|keys|, r requires 0 <= r < |keys| =>
      var v := Entry(BoatsOf(stats), keys[r]);
      Row(keys[r], [Cell(v, 0), Cell(v, 3), Cell(v, 1)]))
  }

  /** The bomb table: one row per key, cells (launched, landed, intercepted). */
  function BombRows(stats: Option<PlayerStats>, keys: seq<string>): (rows: seq<Row>)
    ensures |rows| == |keys|
    ensures forall r :: 0 <= r < |keys| ==>
      rows[r].key == keys[r] && |rows[r].cells| == 3 &&
      forall i :: 0 <= i < 3 ==> rows[r].cells[i] == Recorded(BombsOf(stats), keys[r], i)
  {
    seq(|keys|, r requires 0 <= r < |keys| =>
      var v := Entry(BombsOf(stats), keys[r]);
      Row(keys[r], [Cell(v, 0), Cell(v, 1), Cell(v, 2)]))
  }

  /** The attack row (sent, received, cancelled) = `attacks[0..2]`, each defaulting to 0. */
  function AttackCells(stats: Option<PlayerStats>): (cells: seq<int>)
    ensures |cells| == 3
    ensures forall i :: 0 <= i < 3 ==>
      cells[i] == (if stats.Some? && stats.value.attacks.Some? && i < |stats.value.attacks.value|
                   then stats.value.attacks.value[i] else 0)
  {
    var v := AttacksOf(stats);
    [Cell(v, 0), Cell(v, 1), Cell(v, 2)]
  }

  /** The gold row (gold, workers, war, trade) = `gold[0..3]`, each defaulting to 0. */
  function GoldCells(stats: Option<PlayerStats>): (cells: seq<int>)
    ensures |cells| == 4
    ensures forall i :: 0 <= i < 4 ==>
      cells[i] == (if stats.Some? && stats.value.gold.Some? && i < |stats.value.gold.value|
                   then stats.value.gold.value[i] else 0)
  {
    var v := GoldOf(stats);
    [Cell(v, 0), Cell(v, 1), Cell(v, 2), Cell(v, 3)]
  }

  /** The table component's `render` for the given stats and key lists. */
  function Render(stats: Option<PlayerStats>, buildingKeys: seq<string>, boatKeys: seq<string>, bombKeys: seq<string>): (t: Tables)
    ensures |t.buildings| == |buildingKeys| && |t.boats| == |boatKeys| && |t.bombs| == |bombKeys|
    ensures t.buildings == BuildingRows(stats, buildingKeys) && t.boats == BoatRows(stats, boatKeys)
    ensures t.bombs == BombRows(stats, bombKeys)
    ensures t.attacks == AttackCells(stats) && t.gold == GoldCells(stats)
  {
    Tables(BuildingRows(stats, buildingKeys), BoatRows(stats, boatKeys), BombRows(stats, bombKeys),
           AttackCells(stats), GoldCells(stats))
  }

  /** Every cell of a table is zero. */
  ghost predicate AllZero(rows: seq<Row>) {
    forall r, i :: 0 <= r < |rows| && 0 <= i < |rows[r].cells| ==> rows[r].cells[i] == 0
  }

  /** Null or undefined stats render every table with one all-zero row per key. */
  lemma NoStatsRendersZeros(buildingKeys: seq<string>, boatKeys: seq<string>, bombKeys: seq<string>)
    ensures var t := Render(None, buildingKeys, boatKeys, bombKeys);
      && |t.buildings| == |buildingKeys| && AllZero(t.buildings)
      && |t.boats| == |boatKeys| && AllZero(t.boats)
      && |t.bombs| == |bombKeys| && AllZero(t.bombs)
      && t.attacks == [0, 0, 0] && t.gold == [0, 0, 0, 0]
  {
  }

  /**
   * The boat table never reads index 2: two stats whose boat vectors agree
   * at indices 0, 1 and 3 (missing read as 0) render the same boat table.
   */
  lemma BoatRowsIgnoreIndexTwo(a: Option<PlayerStats>, b: Option<PlayerStats>, keys: seq<string>)
    requires forall k, i :: k in keys && i in {0, 1, 3} ==> Recorded(BoatsOf(a), k, i) == Recorded(BoatsOf(b), k, i)
    ensures BoatRows(a, keys) == BoatRows(b, keys)
  {
  }

  /** The gold row reads no index past 3: vectors that agree on their first four cells render alike. */
  lemma GoldCellsReadFirstFour(a: Option<PlayerStats>, b: Option<PlayerStats>)
    requires forall i :: 0 <= i < 4 ==> Cell(GoldOf(a), i) == Cell(GoldOf(b), i)
    ensures GoldCells(a) == GoldCells(b)
  {
  }
}
