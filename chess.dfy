/**
 * The chess rules library, kept abstract: a position is an opaque value and
 * the server sees it only through the operations bundled in `Rules`.
 */
module Chess {
  import opened Wrappers

  /** A board position with its move history (what the library's game object holds). */
  type Position

  /** Side colours, "w" and "b" in the library. */
  datatype Color = White | Black

  /** A square name such as "e4", as sent by the client. */
  type Square = string

  /**
   * The library operations the server uses:
   * - `initial`: the position of a fresh game;
   * - `pieceColorAt(p, sq)`: the colour of the piece on `sq`, None when there is none;
   * - `tryMove(p, from, to)`: the position after the move, None when the library rejects it
   *   (the server rebuilds the game from `p`'s notation first, which is taken to give `p` back);
   * - `pgn(p)`: the move list in portable game notation;
   * - `isCheckmate(p)`: the side to move is checkmated.
   */
  datatype Rules = Rules(
    initial: Position,
    pieceColorAt: (Position, Square) -> Option<Color>,
    tryMove: (Position, Square, Square) -> Option<Position>,
    pgn: Position -> string,
    isCheckmate: Position -> bool)
}
