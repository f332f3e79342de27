/**
 * The enums of the game core that the stats modal switches on. Only the
 * constructors the modal and its views use are modelled.
 */
module Game {
  /** Whether a game was a public or a private lobby ("visibility"). */
  datatype GameType = Public | Private

  datatype GameMode = FFA | Team

  datatype Difficulty = Easy | Medium | Hard | Impossible
}
