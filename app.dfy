/** The game component: the eight winning lines and the evaluator that
    scans them, and the turn state machine over the component's five pieces
    of state. */
module App {
  import opened Types
  import opened GeminiService

  const InitialBoard: Board := [None, None, None, None, None, None, None, None, None]
  const UserPlayer: Player := X
  const AiPlayer: Player := O

  // ---------------------------------------------------------------------
  // Winning lines and the evaluator

  /** A winning line: three cells and the label of its direction. */
  datatype Line = Line(a: Cell, b: Cell, c: Cell, direction: string)

  /** The eight lines in the order they are tried: rows top to bottom,
      columns left to right, then the two diagonals. */
  const Lines: seq<Line> := [
    Line(0, 1, 2, "top-row"),
    Line(3, 4, 5, "middle-row"),
    Line(6, 7, 8, "bottom-row"),
    Line(0, 3, 6, "left-col"),
    Line(1, 4, 7, "middle-col"),
    Line(2, 5, 8, "right-col"),
    Line(0, 4, 8, "diag-1"),
    Line(2, 4, 6, "diag-2")
  ]

  /** All three squares of `l` hold the same player. */
  predicate Complete(squares: Board, l: Line) {
    squares[l.a] != None && squares[l.a] == squares[l.b] && squares[l.a] == squares[l.c]
  }

  function InfoOf(squares: Board, l: Line): WinningInfo
    requires Complete(squares, l)
  {
    WinningInfo(squares[l.a].value, [l.a, l.b, l.c], l.direction)
  }

  /** Line `k` is complete and no line before it is. */
  ghost predicate FirstComplete(squares: Board, k: int) {
    && 0 <= k < |Lines|
    && Complete(squares, Lines[k])
    && forall j :: 0 <= j < k ==> !Complete(squares, Lines[j])
  }

  /** The information of the first complete line among `Lines[k..]`. */
  function WinnerFrom(squares: Board, k: nat): Option<WinningInfo>
    requires k <= |Lines|
    decreases |Lines| - k
  {
    if k == |Lines| then None
    else if Complete(squares, Lines[k]) then Some(InfoOf(squares, Lines[k]))
    else WinnerFrom(squares, k + 1)
  }

  /** What `calculateWinner` returns for `squares`. */
  function Evaluate(squares: Board): Option<WinningInfo> {
    WinnerFrom(squares, 0)
  }

  lemma {:induction false} WinnerFromNone(squares: Board, k: nat)
    requires k <= |Lines|
    ensures WinnerFrom(squares, k).None? <==> forall j :: k <= j < |Lines| ==> !Complete(squares, Lines[j])
    decreases |Lines| - k
  {
    if k < |Lines| {
      WinnerFromNone(squares, k + 1);
    }
  }

  lemma {:induction false} WinnerFromFirst(squares: Board, k: nat, j: nat)
    requires k <= j < |Lines| && Complete(squares, Lines[j])
    requires forall i :: k <= i < j ==> !Complete(squares, Lines[i])
    ensures WinnerFrom(squares, k) == Some(InfoOf(squares, Lines[j]))
    decreases j - k
  {
    if k < j {
      WinnerFromFirst(squares, k + 1, j);
    }
  }

  lemma {:induction false} WinnerFromSome(squares: Board, k: nat)
    requires k <= |Lines| && WinnerFrom(squares, k).Some?
    ensures exists j ::
              && k <= j < |Lines| && Complete(squares, Lines[j])
              && (forall i :: k <= i < j ==> !Complete(squares, Lines[i]))
              && WinnerFrom(squares, k) == Some(InfoOf(squares, Lines[j]))
    decreases |Lines| - k
  {
    if !Complete(squares, Lines[k]) {
      WinnerFromSome(squares, k + 1);
    }
  }

  /** The evaluator finds nothing exactly when no line is complete. */
  lemma EvaluateNoneIff(squares: Board)
    ensures Evaluate(squares).None? <==> forall j :: 0 <= j < |Lines| ==> !Complete(squares, Lines[j])
  {
    WinnerFromNone(squares, 0);
  }

  /** When several lines are complete, the earliest one is reported, with
      its own direction label. */
  lemma EvaluateFirst(squares: Board, k: int)
    requires FirstComplete(squares, k)
    ensures Evaluate(squares) == Some(InfoOf(squares, Lines[k]))
  {
    WinnerFromFirst(squares, 0, k);
  }

  /** A reported line is one of the eight, its three squares all hold the
      reported winner, and no earlier line is complete. */
  lemma EvaluateSound(squares: Board, w: WinningInfo)
    requires Evaluate(squares) == Some(w)
    ensures |w.line| == 3 && forall c :: c in w.line ==> squares[c] == Some(w.winner)
    ensures exists k :: FirstComplete(squares, k) && w == InfoOf(squares, Lines[k])
  {
    WinnerFromSome(squares, 0);
  }

  /** `calculateWinner`: try each line in order and return the first
      complete one. */
  method CalculateWinner(squares: Board) returns (r: Option<WinningInfo>)
    ensures r == Evaluate(squares)
  {
    for i := 0 to |Lines|
      invariant forall j :: 0 <= j < i ==> !Complete(squares, Lines[j])
    {
      var line := Lines[i];
      if squares[line.a] != None && squares[line.a] == squares[line.b] && squares[line.a] == squares[line.c] {
        EvaluateFirst(squares, i);
        return Some(WinningInfo(squares[line.a].value, [line.a, line.b, line.c], line.direction));
      }
    }
    EvaluateNoneIff(squares);
    return None;
  }

  // ---------------------------------------------------------------------
  // Board facts used by the state machine

  /** The number of squares of `b` held by `p`. */
  function Count(b: seq<Square>, p: Player): nat {
    if b == [] then 0 else (if b[0] == Some(p) then 1 else 0) + Count(b[1..], p)
  }

  /** Filling one empty square adds one to its player's count and nothing
      to the other's. */
  lemma {:induction false} CountPlace(b: seq<Square>, k: int, p: Player, q: Player)
    requires 0 <= k < |b| && b[k] == None
    ensures Count(b[k := Some(q)], p) == Count(b, p) + (if p == q then 1 else 0)
  {
    if k > 0 {
      assert b[k := Some(q)][1..] == b[1..][k - 1 := Some(q)];
      CountPlace(b[1..], k - 1, p, q);
    } else {
      assert b[k := Some(q)][1..] == b[1..];
    }
  }

  /** No square that holds a player in `before` is different in `after`. */
  ghost predicate Keeps(before: Board, after: Board) {
    forall j :: 0 <= j < 9 && before[j] != None ==> after[j] == before[j]
  }

  /** The guard of the AI's write: not the "no move" sentinel, and an
      index whose square is `null` (any other index reads `undefined`). */
  predicate Placeable(b: Board, idx: int) {
    idx != -1 && 0 <= idx < 9 && b[idx] == None
  }

  /** The move provider composed with the AI's write: on a board with an
      empty square, exactly one empty square becomes O, whatever the model
      replied, and X's squares are untouched. */
  lemma AiTurnPlacesOneO(b: Board, reply: Reply)
    requires None in b
    ensures Placeable(b, ChooseMove(b, reply))
    ensures var idx := ChooseMove(b, reply);
      && Count(b[idx := Some(O)], O) == Count(b, O) + 1
      && Count(b[idx := Some(O)], X) == Count(b, X)
  {
    var idx := ChooseMove(b, reply);
    CountPlace(b, idx, O, O);
    CountPlace(b, idx, X, O);
  }

  // ---------------------------------------------------------------------
  // The turn state machine

  /** The state of the game component. The asynchronous AI turn is split at
      its only suspension point: `Step` starts it (the thinking flag goes
      up) and `ApplyAiMove` is its continuation once the provider's index
      is known. */
  class Game {
    var board: Board
    var currentPlayer: Player
    var winningInfo: Option<WinningInfo>
    var isDraw: bool
    var isAiThinking: bool

    /** The invariant of every reachable state. A recorded win is the
        board's own; a draw is a full board without a win; while the AI is
        thinking it is O's turn in an open game. Hence never both a win
        and a draw. */
    ghost predicate Valid()
      reads this
      ensures Valid() ==> !(winningInfo != None && isDraw)
    {
      && (winningInfo != None ==> winningInfo == Evaluate(board))
      && (isDraw ==> Evaluate(board) == None && None !in board)
      && (isAiThinking ==>
            currentPlayer == AiPlayer && winningInfo == None && !isDraw
            && Evaluate(board) == None && None in board)
    }

    /** The turn alternates strictly: X has moved once more than O exactly
        when it is O's turn. */
    ghost predicate Alternating()
      reads this
    {
      Count(board, X) == Count(board, O) + (if currentPlayer == AiPlayer then 1 else 0)
    }

    /** The initial state of the component. */
    constructor ()
      ensures Valid() && Alternating()
      ensures board == InitialBoard && currentPlayer == UserPlayer
      ensures winningInfo == None && !isDraw && !isAiThinking
    {
      board := InitialBoard;
      currentPlayer := UserPlayer;
      winningInfo := None;
      isDraw := false;
      isAiThinking := false;
    }

    /** `handleUserMove`: a click on square `i` is ignored once somebody has
        won, on a taken square, and on O's turn (which covers the whole
        time the AI is thinking); otherwise X takes square `i` and the
        turn passes to O. */
    method UserMove(i: int)
      requires 0 <= i < 9
      requires Valid()
      modifies this
      ensures Valid() && (old(Alternating()) ==> Alternating())
      ensures Keeps(old(board), board)
      ensures winningInfo == old(winningInfo) && isDraw == old(isDraw) && isAiThinking == old(isAiThinking)
      ensures old(winningInfo != None || board[i] != None || currentPlayer != UserPlayer) ==>
                board == old(board) && currentPlayer == old(currentPlayer)
      ensures old(winningInfo == None && board[i] == None && currentPlayer == UserPlayer) ==>
                board == old(board)[i := Some(UserPlayer)] && currentPlayer == AiPlayer
      ensures old(isDraw || isAiThinking) ==> board == old(board) && currentPlayer == old(currentPlayer)
    {
      if winningInfo != None || board[i] != None || currentPlayer != UserPlayer {
        return;
      }
      CountPlace(board, i, X, UserPlayer);
      CountPlace(board, i, O, UserPlayer);
      board := board[i := Some(UserPlayer)];
      currentPlayer := AiPlayer;
    }

    /** `resetGame`: from any state, back to the initial state. */
    method Reset()
      modifies this
      ensures Valid() && Alternating()
      ensures board == InitialBoard && currentPlayer == UserPlayer
      ensures winningInfo == None && !isDraw && !isAiThinking
    {
      board := InitialBoard;
      currentPlayer := UserPlayer;
      winningInfo := None;
      isDraw := false;
      isAiThinking := false;
    }

    /** The effect that runs after every change: record a win if a line is
        complete; otherwise record a draw if no square is empty; otherwise,
        on O's turn with no winner, start the AI turn (the synchronous part
        of `triggerAiMove`, which raises the thinking flag). */
    method Step()
      requires Valid()
      modifies this
      ensures Valid() && (old(Alternating()) ==> Alternating())
      ensures board == old(board) && currentPlayer == old(currentPlayer)
      ensures Evaluate(board) != None ==>
                winningInfo == Evaluate(board) && isDraw == old(isDraw) && isAiThinking == old(isAiThinking)
      ensures Evaluate(board) == None && None !in board ==>
                isDraw && winningInfo == old(winningInfo) && isAiThinking == old(isAiThinking)
      ensures Evaluate(board) == None && None in board ==>
                winningInfo == old(winningInfo) && isDraw == old(isDraw)
                && isAiThinking == (old(isAiThinking) || (currentPlayer == AiPlayer && old(winningInfo) == None))
    {
      var calculated := CalculateWinner(board);
      if calculated != None {
        winningInfo := calculated;
      } else if None !in board {
        isDraw := true;
      } else if currentPlayer == AiPlayer && winningInfo == None {
        isAiThinking := true;
      }
    }

    /** The rest of `triggerAiMove`, once the provider's index `idx` is
        known: O is written only at an index other than -1 whose square is
        empty, and otherwise the board is left as it is; in every case the
        thinking flag goes down and the turn passes back to X. */
    method ApplyAiMove(idx: int)
      requires Valid() && isAiThinking
      modifies this
      ensures Valid()
      ensures board == if Placeable(old(board), idx) then old(board)[idx := Some(AiPlayer)] else old(board)
      ensures Keeps(old(board), board)
      ensures currentPlayer == UserPlayer && !isAiThinking
      ensures winningInfo == old(winningInfo) && isDraw == old(isDraw)
      ensures old(Alternating()) && Placeable(old(board), idx) ==> Alternating()
    {
      var currentBoard := board;
      if idx != -1 && 0 <= idx < 9 && currentBoard[idx] == None {
        CountPlace(currentBoard, idx, X, AiPlayer);
        CountPlace(currentBoard, idx, O, AiPlayer);
        board := currentBoard[idx := Some(AiPlayer)];
      }
      isAiThinking := false;
      currentPlayer := UserPlayer;
    }

    /** The whole AI turn once started: ask the move provider, whose outcome
        is `reply`, and apply the index it resolves to. One empty square
        becomes O and nothing else on the board changes. */
    method AiTurn(reply: Reply) returns (idx: int)
      requires Valid() && isAiThinking
      modifies this
      ensures idx == ChooseMove(old(board), reply)
      ensures 0 <= idx < 9 && old(board)[idx] == None && board == old(board)[idx := Some(AiPlayer)]
      ensures currentPlayer == UserPlayer && !isAiThinking
      ensures winningInfo == old(winningInfo) && isDraw == old(isDraw)
      ensures Valid() && (old(Alternating()) ==> Alternating())
    {
      idx := ChooseMove(board, reply);
      ApplyAiMove(idx);
    }
  }

  // ---------------------------------------------------------------------
  // Scenarios

  /** X completes the top row: the evaluator reports it with its label. */
  lemma TopRowWin()
    ensures Evaluate([Some(X), Some(X), Some(X), Some(O), Some(O), None, None, None, None])
         == Some(WinningInfo(X, [0, 1, 2], "top-row"))
  {
    EvaluateFirst([Some(X), Some(X), Some(X), Some(O), Some(O), None, None, None, None], 0);
  }

  /** A full board on which no line is complete: no winner, no empty square. */
  lemma FullBoardNoWinner()
    ensures var b: Board := [Some(X), Some(O), Some(X), Some(O), Some(X), Some(O), Some(O), Some(X), Some(O)];
      Evaluate(b) == None && None !in b
  {
    var b: Board := [Some(X), Some(O), Some(X), Some(O), Some(X), Some(O), Some(O), Some(X), Some(O)];
    EvaluateNoneIff(b);
  }

  /** One round of play as the component runs it: X clicks square `i`, the
      effect starts the AI turn, the provider answers with `reply`, O's
      move is applied and the effect runs again. When X's move neither
      wins nor fills the board, O takes the square the provider resolves
      to, and the game then records exactly the win or draw that board
      shows. */
  method PlayRound(g: Game, i: int, reply: Reply) returns (idx: int)
    requires g.Valid() && 0 <= i < 9
    requires g.currentPlayer == UserPlayer && g.winningInfo == None && !g.isAiThinking && g.board[i] == None
    requires Evaluate(g.board[i := Some(UserPlayer)]) == None && None in g.board[i := Some(UserPlayer)]
    modifies g
    ensures var afterX := old(g.board)[i := Some(UserPlayer)];
      && idx == ChooseMove(afterX, reply) && 0 <= idx < 9 && afterX[idx] == None
      && g.board == afterX[idx := Some(AiPlayer)]
    ensures g.Valid() && g.currentPlayer == UserPlayer && !g.isAiThinking
    ensures g.winningInfo == Evaluate(g.board)
    ensures g.isDraw <==> Evaluate(g.board) == None && None !in g.board
    ensures old(g.Alternating()) ==> g.Alternating()
  {
    g.UserMove(i);
    g.Step();
    idx := g.AiTurn(reply);
    g.Step();
  }

  /** The opening of a game: X plays 0, the model answers 3, X plays 1,
      the model answers 4. */
  method PlayOpening() returns (g: Game)
    ensures fresh(g) && g.Valid()
    ensures g.board == [Some(X), Some(X), None, Some(O), Some(O), None, None, None, None]
    ensures g.currentPlayer == UserPlayer && g.winningInfo == None && !g.isDraw && !g.isAiThinking
  {
    g := new Game();
    var b := g.board[0 := Some(X)];
    assert Evaluate(b) == None by { EvaluateNoneIff(b); }
    assert ChooseMove(b, Parsed(Number(3.0))) == 3 by { ValidReplyHonoured(b, 3); }
    var o1 := PlayRound(g, 0, Parsed(Number(3.0)));
    b := g.board[1 := Some(X)];
    assert Evaluate(b) == None by { EvaluateNoneIff(b); }
    assert ChooseMove(b, Parsed(Number(4.0))) == 4 by { ValidReplyHonoured(b, 4); }
    var o2 := PlayRound(g, 1, Parsed(Number(4.0)));
    assert Evaluate(g.board) == None by { EvaluateNoneIff(g.board); }
  }

  /** From X, X, _ / O, O, _ / _, _, _ with X to move, X plays 2 and wins
      on the top row; the finished game then ignores further clicks. */
  method TopRowFinish(g: Game)
    requires g.Valid()
    requires g.board == [Some(X), Some(X), None, Some(O), Some(O), None, None, None, None]
    requires g.currentPlayer == UserPlayer && g.winningInfo == None && !g.isDraw && !g.isAiThinking
    modifies g
    ensures g.winningInfo == Some(WinningInfo(X, [0, 1, 2], "top-row")) && !g.isDraw
    ensures g.board == [Some(X), Some(X), Some(X), Some(O), Some(O), None, None, None, None]
  {
    g.UserMove(2);
    assert g.board == [Some(X), Some(X), Some(X), Some(O), Some(O), None, None, None, None];
    assert Evaluate(g.board) == Some(WinningInfo(X, [0, 1, 2], "top-row")) by { TopRowWin(); }
    g.Step();
    g.UserMove(5);
  }
}
