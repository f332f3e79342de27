# Player statistics modal — a Dafny model

This project models the client-side core of the player-info modal of the
OpenFront browser game: the component that shows a player's win/loss record,
per-building, per-ship and per-weapon counters and recent games, read from a
sparse statistics tree `visibility -> mode -> difficulty -> leaf` that the
player API returns.

Modules, one per source file or shared shape:

- `Wrappers` — `Option`, the model of `T | null | undefined`.
- `Game` — the enums `GameType` (visibility), `GameMode`, `Difficulty`.
- `StatsSchemas` — the per-leaf `PlayerStats` record (categories that may be missing, integer counters).
- `ApiSchemas` — the statistics tree, recent-game rows, the "me" response; `ModeKeys` and `FindMode` read the
  mode level, which is a key-ordered sequence because the modal falls back to the *first* listed mode.
- `UriComponent` — `encodeURIComponent` / `decodeURIComponent` (percent-encoding, section 2.1 of RFC 3986, of
  UTF-8 bytes, section 3 of RFC 3629), with the round trip `Decode(Encode(s)) == Some(s)` proved for every string.
- `PlayerInfoModal` — the modal as a class: selection state machine, "no data" warning, load completion, reset
  on a user without a public id, and the join URL built by "view game".
- `PlayerStatsTree` — the tree view as a class: leaf lookup, displayed stats, render guard, win/loss ratio,
  and the three setters that request a re-render only on change.
- `GameList` — the recent-games list as a class: the single expanded id, its toggle and the rendered cards.
- `PlayerStatsTable` — the pure cell-extraction rules of the stats tables.

Behaviour of the code that a reader might not expect:

- Changing visibility falls back only on the mode (to the first listed mode under the new visibility), never on
  the difficulty, and it neither sets nor clears the "no data" warning.
- Changing the mode sets the warning only when the mode itself is missing under the current visibility; a present
  mode whose difficulty level lacks the selected difficulty clears the warning.
- A successful load does not clear the error itself: `loadFromApi` clears it before the request, so after a
  synchronous completion it is null.

## Model

| member | source | states |
|---|---|---|
| `ApiSchemas.ModeKeys` | src/client/PlayerInfoModal.ts:59-60 | the listed modes are the mode level's keys, one per entry, in key order |
| `ApiSchemas.FindMode` | src/client/components/baseComponents/stats/PlayerStatsTree.ts:24-25 | a mode resolves iff it is among the listed keys, and then to the subtree of the first entry with that key |
| `UriComponent.Encode` | src/client/PlayerInfoModal.ts:37 | the encoding holds only unreserved characters and `%`; a string of unreserved characters is unchanged |
| `UriComponent.Utf8RoundTrip` | src/client/PlayerInfoModal.ts:37 | UTF-8 decoding gives back every encoded scalar value, and the lead byte announces the sequence length |
| `UriComponent.ReadEscapesOfEscapeAll` | src/client/PlayerInfoModal.ts:37 | `%XY` escapes of any bytes read back as those bytes |
| `UriComponent.DecodeEncodeChar` | src/client/PlayerInfoModal.ts:37 | decoding the encoding of one character followed by any text yields that character first |
| `UriComponent.DecodeEncode` | src/client/PlayerInfoModal.ts:37 | percent-decoding the encoding of any game id gives the id back |
| `PlayerInfoModal.JoinHash` | src/client/PlayerInfoModal.ts:37 | the hash is `#join=` then a suffix of unreserved characters and `%` that decodes to the game id |
| `PlayerInfoModal.ViewGameUrl` | src/client/PlayerInfoModal.ts:35-38 | the new URL is the path, then the query, then the join hash |
| `PlayerInfoModal.PlayerInfoModal.constructor` | src/client/PlayerInfoModal.ts:23-31 | initial state: nothing loaded, no messages, selection (Public, FFA, Medium) |
| `PlayerInfoModal.PlayerInfoModal.ModesUnder` | src/client/PlayerInfoModal.ts:58-60 | modes are listed under a visibility only if the tree has that visibility |
| `PlayerInfoModal.PlayerInfoModal.SetGameType` | src/client/PlayerInfoModal.ts:56-65 | visibility becomes `t`; the mode falls back to the first listed mode iff modes are listed and the current one is not; afterwards a listed mode always resolves; nothing else changes |
| `PlayerInfoModal.PlayerInfoModal.SetMode` | src/client/PlayerInfoModal.ts:67-81 | mode becomes `m`; the "no data" warning is set iff `m` is not listed under the visibility, and cleared otherwise |
| `PlayerInfoModal.PlayerInfoModal.SetDifficulty` | src/client/PlayerInfoModal.ts:83-96 | difficulty becomes `d`; the warning is cleared iff the leaf (visibility, mode, `d`) exists, set otherwise |
| `PlayerInfoModal.PlayerInfoModal.Open` | src/client/PlayerInfoModal.ts:228-232 | opening clears the load error and touches nothing else |
| `PlayerInfoModal.PlayerInfoModal.LoadFromApi` | src/client/PlayerInfoModal.ts:255-275 | the id is requested; failure sets the load error and keeps games and tree; success installs games and tree with no error |
| `PlayerInfoModal.PlayerInfoModal.OnUserMe` | src/client/PlayerInfoModal.ts:238-253 | without a non-empty public id everything resets to defaults and nothing is requested; with one, that id is loaded and the selection is kept |
| `PlayerStatsTree.WinLossRatio` | src/client/components/baseComponents/stats/PlayerStatsTree.ts:61-62 | with no losses the ratio is the number of wins; otherwise it equals wins divided by losses |
| `PlayerStatsTree.PlayerStatsTreeView.constructor` | src/client/components/baseComponents/stats/PlayerStatsTree.ts:12-15 | no tree, selection (Public, FFA, Medium) |
| `PlayerStatsTree.PlayerStatsTreeView.GetSelectedLeaf` | src/client/components/baseComponents/stats/PlayerStatsTree.ts:21-29 | the leaf at (visibility, mode, difficulty) when all three levels exist, None otherwise, including without a tree |
| `PlayerStatsTree.PlayerStatsTreeView.GetDisplayedStats` | src/client/components/baseComponents/stats/PlayerStatsTree.ts:31-35 | None iff there is no leaf or it has no stats; otherwise the leaf's stats |
| `PlayerStatsTree.PlayerStatsTreeView.Render` | src/client/components/baseComponents/stats/PlayerStatsTree.ts:58-62 | empty output iff no leaf is selected; otherwise the leaf's wins, losses, total, ratio and displayed stats |
| `PlayerStatsTree.PlayerStatsTreeView.SetGameType` | src/client/components/baseComponents/stats/PlayerStatsTree.ts:37-42 | visibility becomes `t`; a re-render is requested iff it changed; the same value changes nothing |
| `PlayerStatsTree.PlayerStatsTreeView.SetMode` | src/client/components/baseComponents/stats/PlayerStatsTree.ts:44-49 | mode becomes `m`; a re-render is requested iff it changed; the same value changes nothing |
| `PlayerStatsTree.PlayerStatsTreeView.SetDifficulty` | src/client/components/baseComponents/stats/PlayerStatsTree.ts:51-56 | difficulty becomes `d`; a re-render is requested iff it changed; the same value changes nothing |
| `GameList.Toggled` | src/client/components/baseComponents/stats/GameList.ts:55-57 | toggling collapses iff the game was the expanded one, and otherwise expands exactly that game |
| `GameList.ToggleTwice` | src/client/components/baseComponents/stats/GameList.ts:55-57 | from nothing expanded or from `id` expanded, toggling `id` twice is no change |
| `GameList.ToggleTwiceFromOther` | src/client/components/baseComponents/stats/GameList.ts:55-57 | from another game expanded, toggling `id` twice leaves nothing expanded |
| `GameList.GameList.constructor` | src/client/components/baseComponents/stats/GameList.ts:50-53 | a new list has nothing expanded |
| `GameList.GameList.Toggle` | src/client/components/baseComponents/stats/GameList.ts:55-57 | the expanded id becomes the toggled one and nothing else changes |
| `GameList.GameList.Render` | src/client/components/baseComponents/stats/GameList.ts:61-97 | one card per game in input order; a card is expanded iff its game id is the expanded id |
| `GameList.GameList.ViewGame` | src/client/components/baseComponents/stats/GameList.ts:79 | the view action passes exactly that card's game id to the callback, if one is installed, and changes nothing |
| `GameList.AtMostOneExpanded` | src/client/components/baseComponents/stats/GameList.ts:53 | all expanded cards carry the one remembered id; with distinct ids at most one card is expanded |
| `PlayerStatsTable.BuildingRows` | src/client/components/baseComponents/PlayerStatsTable.ts:65-69 | one row per building key in order; cells are `units[k][0..3]`, 0 where category, key or index is missing |
| `PlayerStatsTable.BoatRows` | src/client/components/baseComponents/PlayerStatsTable.ts:100-110 | one row per boat key in order; cells are `boats[k]` at indices 0, 3, 1 in that column order |
| `PlayerStatsTable.BombRows` | src/client/components/baseComponents/PlayerStatsTable.ts:139-148 | one row per bomb key in order; cells are `bombs[k][0..2]`, each defaulting to 0 |
| `PlayerStatsTable.AttackCells` | src/client/components/baseComponents/PlayerStatsTable.ts:172-174 | the attack row is `attacks[0..2]`, each defaulting to 0 |
| `PlayerStatsTable.GoldCells` | src/client/components/baseComponents/PlayerStatsTable.ts:191-194 | the gold row is `gold[0..3]`, each defaulting to 0 |
| `PlayerStatsTable.Render` | src/client/components/baseComponents/PlayerStatsTable.ts:44-199 | the five tables are the building, boat and bomb rows (one per key of each list) and the attack and gold cells, all read from the same stats |
| `PlayerStatsTable.NoStatsRendersZeros` | src/client/components/baseComponents/PlayerStatsTable.ts:44-194 | null stats give one all-zero row per key in every table and all-zero attack and gold rows |
| `PlayerStatsTable.BoatRowsIgnoreIndexTwo` | src/client/components/baseComponents/PlayerStatsTable.ts:100-110 | index 2 of a boat vector never affects the boat table |
| `PlayerStatsTable.GoldCellsReadFirstFour` | src/client/components/baseComponents/PlayerStatsTable.ts:189-196 | no gold index past 3 affects the gold row |

## Left out

- Rendering with Lit, CSS, modal chrome, `close()` and the `requestUpdate` calls of the modal: presentation only.
  The tree view's re-render requests are kept as a counter because its setters are specified by them.
- The `console.warn` diagnostic that `loadFromApi` logs when the request throws: logging only; the model keeps the
  resulting load error.
- `translateText` and `renderNumber`: foreign presentation helpers; the model keeps translation keys and raw counters.
- The network: `fetchPlayerById`, tokens and the API base. `LoadFromApi` takes the request's outcome as a
  parameter and completes synchronously; `OnUserMe` does the same, so the race where an earlier slow response
  overwrites a later player's data is not modelled.
- `history.pushState` and the `hashchange` event of "view game"; the browser's path and query are parameters of
  `ViewGameUrl`.
- Schema validation of API payloads (a library call) and the token payload's base64url-to-UUID refinement
  (`Base64.ts` is not part of this model). Only the response shapes are modelled; fields nothing reads
  (roles, flares, avatars, the scalar `betrayals` counter) are dropped.
- `isGameMode` filtering of the mode keys: the model's mode keys are typed, so the filter keeps every key.
- Floating-point win/loss division: modelled as an exact fraction; `Date.toLocaleString` of a game's start.
- Binding of the modal's selection to the tree view: the modal passes an object the view does not declare, and the
  view keeps its own tree and selection; the two are not synchronised in the model.
- Aggregating or merging stats across leaves: no such routine is part of the modelled files.
- `BuildingKeys`, `BoatKeys`, `BombKeys` (from `StatsSchemas.ts`, which is not part of this model): parameters of
  the table functions.
- Lone surrogates: a JavaScript string may hold a lone surrogate, on which `encodeURIComponent` throws; a
  Dafny `char` is a Unicode scalar value, so that error path has no counterpart.
- Duplicate keys in the mode level cannot arise from parsed JSON; the model's lookup takes the first entry.
