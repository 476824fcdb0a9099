/**
 * The data the external 2048 rule engine hands to the app. The engine's
 * logic (parsing a seeded recording, replaying moves, spawning tiles,
 * detecting a lost or won game, hashing a recording) is not part of this
 * model: its results enter every operation as inputs.
 */
module RuleEngine {
  import opened Wrappers

  datatype Direction = UP | DOWN | LEFT | RIGHT

  /** A tile keeps its `id` while it slides; merging produces a tile with a new id. */
  datatype Tile = Tile(id: nat, value: nat)

  /** `tiles[row][column]`, `None` for an empty cell. */
  datatype Board = Board(width: nat, height: nat, tiles: seq<seq<Option<Tile>>>)

  datatype GameState = GameState(
    board: Board,
    scoreCurrent: nat,
    scoreMax: nat,
    over: bool,
    won: bool,
    allowedMoves: set<Direction>)

  /** A seeded recording: the seed, the board size and the moves so far. */
  datatype Recording = Recording(seed: nat, width: nat, height: nat, moves: seq<Direction>)
}
