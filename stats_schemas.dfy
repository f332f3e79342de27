/**
 * The per-leaf statistics record. Every counter is an arbitrary-precision
 * integer; every category may be missing from the record.
 */
module StatsSchemas {
  import opened Wrappers

  /** A fixed-arity counter vector, e.g. `[sent, received, cancelled]`. */
  type Counters = seq<int>

  /** A category keyed by unit, boat or bomb name. */
  type KeyedCounters = map<string, Counters>

  /**
   * The categories of a player's statistics that the stats table reads:
   * `units[key] = [built, destroyed, captured, lost]`,
   * `boats[key] = [sent, arrived, captured, destroyed]`,
   * `bombs[key] = [launched, landed, intercepted]`,
   * `attacks = [sent, received, cancelled]`,
   * `gold = [gold, workers, war, trade, steal]`.
   */
  datatype PlayerStats = PlayerStats(
    units: Option<KeyedCounters>,
    boats: Option<KeyedCounters>,
    bombs: Option<KeyedCounters>,
    attacks: Option<Counters>,
    gold: Option<Counters>)
}
