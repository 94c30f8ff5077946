/** The value types of the game: players, squares, the board and the
    description of a completed line. */
module Types {

  /** A value that may be absent; `None` plays the part of TypeScript's `null`. */
  datatype Option<+T> = None | Some(value: T)

  /** The two players: the human plays X, the model-backed opponent plays O. */
  datatype Player = X | O

  /** One square of the board: empty (`null`) or held by a player. */
  type Square = Option<Player>

  /** An index into the board, in row-major order:
        0 1 2
        3 4 5
        6 7 8  */
  type Cell = i: int | 0 <= i < 9

  /** A board always has exactly nine squares: every board of the game is
      the initial one or a copy of another board with one square replaced. */
  type Board = b: seq<Square> | |b| == 9 witness [None, None, None, None, None, None, None, None, None]

  /** A completed line: the player holding it, its three cells and the
      label the presentation layer uses to draw the strike-through. */
  datatype WinningInfo = WinningInfo(winner: Player, line: seq<Cell>, direction: string)
}
