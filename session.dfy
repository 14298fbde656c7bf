/**
 * The `ChessBoard` game session: the board snapshot, whether the game is
 * running, whose turn it is, and the two countdown clocks, changed by the
 * once-per-second clock tick, by a dropped piece (`handleMove`), by the Reset
 * button (`handleReset`) and by the Play/Pause button (`handlePlayPause`).
 *
 * The chess library is not modelled: its answer to a move request is an
 * oracle `Library`, and the board it reports is taken as given. The library's
 * position and the `board` snapshot agree at all times (the component copies
 * `chess.board()` into `board` after every change to the library's position),
 * so the library's `get(square)` is a lookup in the snapshot.
 *
 * The pure functions below specify each operation on a `State` value; the
 * class `ChessBoard` holds the same state in fields and its methods are
 * proved to follow them.
 */
module Session {
  import opened Wrappers
  import opened Pieces
  import opened Squares

  /** `chess.board()`: eight rows from rank 8 down to rank 1, eight squares from file a to h. */
  type Board = seq<seq<Option<Piece>>>

  predicate IsGrid(b: Board) {
    |b| == 8 && forall r :: 0 <= r < 8 ==> |b[r]| == 8
  }

  /** `chess.get(square)`: the piece on a named square of the snapshot, if any. */
  function PieceAt(b: Board, square: string): (p: Option<Piece>)
    ensures ParseSquare(square).None? ==> p.None?
    ensures IsGrid(b) && ParseSquare(square).Some? ==>
              p == b[ParseSquare(square).value.row][ParseSquare(square).value.column]
  {
    match ParseSquare(square)
    case None => None
    case Some(cell) =>
      if cell.row < |b| && cell.column < |b[cell.row]| then b[cell.row][cell.column] else None
  }

  /** The name the board gives a drawn square leads back to the piece drawn there. */
  lemma PieceAtSquareName(b: Board, row: int, column: int)
    requires IsGrid(b) && OnBoard(row, column)
    ensures PieceAt(b, SquareName(row, column)) == b[row][column]
  {
  }

  function BackRank(color: Color): seq<Option<Piece>> {
    [Some(Piece(Rook, color)), Some(Piece(Knight, color)), Some(Piece(Bishop, color)), Some(Piece(Queen, color)),
     Some(Piece(King, color)), Some(Piece(Bishop, color)), Some(Piece(Knight, color)), Some(Piece(Rook, color))]
  }

  function PawnRank(color: Color): seq<Option<Piece>> {
    var p := Some(Piece(Pawn, color));
    [p, p, p, p, p, p, p, p]
  }

  const EmptyRank: seq<Option<Piece>> := [None, None, None, None, None, None, None, None]

  /** The standard starting position, as the library's board reads after `reset()`. */
  const InitialBoard: Board :=
    [BackRank(Black), PawnRank(Black), EmptyRank, EmptyRank, EmptyRank, EmptyRank, PawnRank(White), BackRank(White)]

  /** The starting layout: both back ranks, both pawn ranks, four empty ranks between. */
  lemma InitialLayout()
    ensures IsGrid(InitialBoard)
    ensures forall c :: 0 <= c < 8 ==> InitialBoard[6][c] == Some(Piece(Pawn, White))
    ensures forall c :: 0 <= c < 8 ==> InitialBoard[1][c] == Some(Piece(Pawn, Black))
    ensures forall r, c :: 2 <= r < 6 && 0 <= c < 8 ==> InitialBoard[r][c] == None
    ensures PieceAt(InitialBoard, "e1") == Some(Piece(King, White))
    ensures PieceAt(InitialBoard, "d8") == Some(Piece(Queen, Black))
  {
  }

  /** The ten minutes each clock starts from. */
  const StartingSeconds := 600

  datatype State = State(board: Board, isPlaying: bool, currentPlayer: Color, whiteTime: int, blackTime: int)

  /** The state the component mounts with, and the state Reset returns to. */
  const Initial := State(InitialBoard, false, White, StartingSeconds, StartingSeconds)

  function ClockOf(s: State, c: Color): int {
    if c == White then s.whiteTime else s.blackTime
  }

  predicate ClocksNonNegative(s: State) {
    s.whiteTime >= 0 && s.blackTime >= 0
  }

  // ---------------------------------------------------------------- clock tick

  /**
   * One firing of the one-second interval. It runs only while the game is
   * playing and touches only the clock of the player to move: a positive
   * clock loses one second; a clock at or below zero is set to zero and the
   * game stops.
   */
  function TickState(s: State): (t: State)
    ensures !s.isPlaying ==> t == s
    ensures t.board == s.board && t.currentPlayer == s.currentPlayer
    ensures ClockOf(t, Opponent(s.currentPlayer)) == ClockOf(s, Opponent(s.currentPlayer))
    ensures s.isPlaying && ClockOf(s, s.currentPlayer) > 0 ==>
              t.isPlaying && ClockOf(t, s.currentPlayer) == ClockOf(s, s.currentPlayer) - 1
    ensures s.isPlaying && ClockOf(s, s.currentPlayer) <= 0 ==>
              !t.isPlaying && ClockOf(t, s.currentPlayer) == 0
  {
    if !s.isPlaying then s
    else if s.currentPlayer == White then
      if s.whiteTime <= 0 then s.(isPlaying := false, whiteTime := 0) else s.(whiteTime := s.whiteTime - 1)
    else
      if s.blackTime <= 0 then s.(isPlaying := false, blackTime := 0) else s.(blackTime := s.blackTime - 1)
  }

  /**
   * The winner a tick announces ("Black wins by timeout!" when White's clock
   * has run out, and the reverse), if any.
   */
  function TickWinner(s: State): (w: Option<Color>)
    ensures w.Some? <==> s.isPlaying && !TickState(s).isPlaying
    ensures w.Some? ==> w.value == Opponent(s.currentPlayer) && ClockOf(s, s.currentPlayer) <= 0
  {
    if s.isPlaying && ClockOf(s, s.currentPlayer) <= 0 then Some(Opponent(s.currentPlayer)) else None
  }

  /**
   * A clock that reaches zero does not end the game on that tick: the game
   * stops, and the other side is announced the winner, on the next tick,
   * once the clock shows 0:00.
   */
  lemma TimeoutOneTickAfterZero(s: State)
    requires s.isPlaying && ClockOf(s, s.currentPlayer) == 1
    ensures TickWinner(s) == None && TickState(s).isPlaying && ClockOf(TickState(s), s.currentPlayer) == 0
    ensures TickWinner(TickState(s)) == Some(Opponent(s.currentPlayer))
    ensures !TickState(TickState(s)).isPlaying
  {
  }

  // ---------------------------------------------------------------- moves

  /** What the component asks of the library: always with promotion to a queen. */
  datatype MoveRequest = MoveRequest(from: string, to: string, promotion: PieceKind)

  /**
   * The library's answer: the move is refused (it throws, or returns nothing),
   * or it is made, and then the new board and whether the position is
   * checkmate, a draw or stalemate.
   */
  datatype LibraryAnswer =
    | Refused
    | Played(board: Board, checkmate: bool, draw: bool, stalemate: bool)

  type Library = MoveRequest -> LibraryAnswer

  /** How a game ends after a move, in the order the component tests for it. */
  datatype Ending = Continues | CheckmateWonBy(winner: Color) | Drawn | Stalemated

  /**
   * What became of a dropped piece. `NotYourTurn` and an `InvalidMove` the
   * library throws on are logged; an `InvalidMove` where the library returns
   * no move is silent, as is `Paused`; the ending of a made move is alerted
   * unless play continues.
   */
  datatype MoveOutcome =
    | Paused        // moves are ignored while the game is not playing
    | NotYourTurn   // the from-square is empty or holds the other side's piece
    | InvalidMove   // the library refused the move (threw or returned no move)
    | Moved(ending: Ending)

  function Request(from: string, to: string): MoveRequest {
    MoveRequest(from, to, Queen)
  }

  /** `piece?.color === currentPlayer`: the from-square holds a piece of the side to move. */
  predicate MoverOwns(s: State, from: string): (owns: bool)
    ensures ParseSquare(from).None? ==> !owns
    ensures IsGrid(s.board) && ParseSquare(from).Some? ==>
              var cell := ParseSquare(from).value;
              (owns <==> s.board[cell.row][cell.column].Some? && s.board[cell.row][cell.column].value.color == s.currentPlayer)
  {
    PieceAt(s.board, from).Some? && PieceAt(s.board, from).value.color == s.currentPlayer
  }

  function EndingOf(answer: LibraryAnswer, mover: Color): (e: Ending)
    requires answer.Played?
    ensures e == Continues <==> !answer.checkmate && !answer.draw && !answer.stalemate
    ensures e.CheckmateWonBy? <==> answer.checkmate
    ensures e.CheckmateWonBy? ==> e.winner == mover
    ensures e == Drawn <==> !answer.checkmate && answer.draw
    ensures e == Stalemated <==> !answer.checkmate && !answer.draw && answer.stalemate
  {
    if answer.checkmate then CheckmateWonBy(mover)
    else if answer.draw then Drawn
    else if answer.stalemate then Stalemated
    else Continues
  }

  /** The outcome `handleMove(from, to)` reports. */
  function MoveOutcomeOf(s: State, from: string, to: string, library: Library): (o: MoveOutcome)
    ensures o == Paused <==> !s.isPlaying
    ensures o == NotYourTurn <==> s.isPlaying && !MoverOwns(s, from)
    ensures o == InvalidMove <==> s.isPlaying && MoverOwns(s, from) && library(Request(from, to)).Refused?
    ensures o.Moved? <==> s.isPlaying && MoverOwns(s, from) && library(Request(from, to)).Played?
    ensures o.Moved? ==> o.ending == EndingOf(library(Request(from, to)), s.currentPlayer)
  {
    if !s.isPlaying then Paused
    else if !MoverOwns(s, from) then NotYourTurn
    else
      var answer := library(Request(from, to));
      if answer.Refused? then InvalidMove else Moved(EndingOf(answer, s.currentPlayer))
  }

  /**
   * The state after `handleMove(from, to)`. Every rejection leaves the state
   * as it was; a move the library makes replaces the board by the library's,
   * passes the turn to the other side, leaves both clocks alone and stops the
   * game exactly when the library reports checkmate, a draw or stalemate.
   */
  function MoveState(s: State, from: string, to: string, library: Library): (t: State)
    ensures !MoveOutcomeOf(s, from, to, library).Moved? ==> t == s
    ensures MoveOutcomeOf(s, from, to, library).Moved? ==>
              var answer := library(Request(from, to));
              && t.board == answer.board
              && t.currentPlayer == Opponent(s.currentPlayer)
              && t.whiteTime == s.whiteTime && t.blackTime == s.blackTime
              && (t.isPlaying <==> !answer.checkmate && !answer.draw && !answer.stalemate)
    ensures t.currentPlayer != s.currentPlayer <==> MoveOutcomeOf(s, from, to, library).Moved?
  {
    var outcome := MoveOutcomeOf(s, from, to, library);
    if outcome.Moved? then
      var answer := library(Request(from, to));
      s.(board := answer.board, currentPlayer := Opponent(s.currentPlayer), isPlaying := outcome.ending == Continues)
    else
      s
  }

  /** A side cannot move twice in a row: right after its move, its own pieces are refused. */
  lemma NoDoubleMove(s: State, from: string, to: string, library: Library, from2: string, to2: string, library2: Library)
    requires MoveOutcomeOf(s, from, to, library).Moved?
    requires var t := MoveState(s, from, to, library);
             PieceAt(t.board, from2).Some? && PieceAt(t.board, from2).value.color == s.currentPlayer
    ensures var t := MoveState(s, from, to, library);
            MoveOutcomeOf(t, from2, to2, library2) in {Paused, NotYourTurn}
            && MoveState(t, from2, to2, library2) == t
  {
  }

  // ---------------------------------------------------------------- buttons

  /** `handleReset`: the library's position is reset and everything else returns to its starting value. */
  function ResetState(s: State): (t: State)
    ensures t.board == InitialBoard && !t.isPlaying && t.currentPlayer == White
    ensures t.whiteTime == StartingSeconds && t.blackTime == StartingSeconds
  {
    Initial
  }

  /** `handlePlayPause`: flips whether the game is playing and nothing else. */
  function PlayPauseState(s: State): (t: State)
    ensures t.isPlaying != s.isPlaying
    ensures t.board == s.board && t.currentPlayer == s.currentPlayer
    ensures t.whiteTime == s.whiteTime && t.blackTime == s.blackTime
  {
    s.(isPlaying := !s.isPlaying)
  }

  /** Pressing Play/Pause twice changes nothing. */
  lemma PlayPauseTwice(s: State)
    ensures PlayPauseState(PlayPauseState(s)) == s
  {
  }

  /** After Reset the game waits for Play: ticks and moves leave it untouched. */
  lemma ResetWaitsForPlay(s: State, from: string, to: string, library: Library)
    ensures TickState(ResetState(s)) == ResetState(s) && TickWinner(ResetState(s)) == None
    ensures MoveOutcomeOf(ResetState(s), from, to, library) == Paused
    ensures MoveState(ResetState(s), from, to, library) == ResetState(s)
  {
  }

  /** After Reset and Play, White may pick up exactly White's pieces. */
  lemma WhiteMovesFirst(s: State, row: int, column: int, to: string, library: Library)
    requires OnBoard(row, column)
    ensures var start := PlayPauseState(ResetState(s));
            MoveOutcomeOf(start, SquareName(row, column), to, library) != NotYourTurn
            <==> InitialBoard[row][column].Some? && InitialBoard[row][column].value.color == White
  {
    InitialLayout();
    PieceAtSquareName(InitialBoard, row, column);
  }

  // ---------------------------------------------------------------- sessions

  /** Everything that can happen to the session, one at a time. */
  datatype Event =
    | ClockTick
    | PieceDropped(from: string, to: string, library: Library)
    | ResetPressed
    | PlayPausePressed

  function Step(s: State, e: Event): State {
    match e
    case ClockTick => TickState(s)
    case PieceDropped(from, to, library) => MoveState(s, from, to, library)
    case ResetPressed => ResetState(s)
    case PlayPausePressed => PlayPauseState(s)
  }

  function Run(s: State, events: seq<Event>): State
    decreases |events|
  {
    if events == [] then s else Run(Step(s, events[0]), events[1..])
  }

  function TickCount(events: seq<Event>): nat {
    if events == [] then 0 else (if events[0].ClockTick? then 1 else 0) + TickCount(events[1..])
  }

  /** While the game is not playing, only the two buttons change anything. */
  lemma PausedIgnoresTicksAndMoves(s: State, e: Event)
    requires !s.isPlaying && (e.ClockTick? || e.PieceDropped?)
    ensures Step(s, e) == s
  {
  }

  /** Clocks that start at zero or above never show a negative time. */
  lemma {:induction false} ClocksStayNonNegative(s: State, events: seq<Event>)
    requires ClocksNonNegative(s)
    ensures ClocksNonNegative(Run(s, events))
    decreases |events|
  {
    if events != [] {
      ClocksStayNonNegative(Step(s, events[0]), events[1..]);
    }
  }

  /**
   * Without a Reset, no clock ever gains time, and the two clocks together
   * lose at most one second per tick.
   */
  lemma {:induction false} ClocksOnlyRunDown(s: State, events: seq<Event>)
    requires ClocksNonNegative(s)
    requires forall i :: 0 <= i < |events| ==> !events[i].ResetPressed?
    ensures Run(s, events).whiteTime <= s.whiteTime && Run(s, events).blackTime <= s.blackTime
    ensures s.whiteTime + s.blackTime - TickCount(events) <= Run(s, events).whiteTime + Run(s, events).blackTime
    decreases |events|
  {
    if events != [] {
      var t := Step(s, events[0]);
      assert !events[0].ResetPressed?;
      assert forall i :: 0 <= i < |events[1..]| ==> !events[1..][i].ResetPressed? by {
        forall i | 0 <= i < |events[1..]| ensures !events[1..][i].ResetPressed? {
          assert events[1..][i] == events[i + 1];
        }
      }
      ClocksOnlyRunDown(t, events[1..]);
    }
  }

  // ---------------------------------------------------------------- the component

  /** The component's state hooks, updated in place by its handlers. */
  class ChessBoard {
    var board: Board
    var isPlaying: bool
    var currentPlayer: Color
    var whiteTime: int
    var blackTime: int

    function Snapshot(): State
      reads this
    {
      State(board, isPlaying, currentPlayer, whiteTime, blackTime)
    }

    /** The initial values of the `useState` hooks. */
    constructor ()
      ensures Snapshot() == Initial
    {
      board := InitialBoard;
      isPlaying := false;
      currentPlayer := White;
      whiteTime := StartingSeconds;
      blackTime := StartingSeconds;
    }

    /** One firing of the interval; returns the side that wins on time, if the clock ran out. */
    method Tick() returns (timeoutWinner: Option<Color>)
      modifies this
      ensures Snapshot() == TickState(old(Snapshot()))
      ensures timeoutWinner == TickWinner(old(Snapshot()))
    {
      timeoutWinner := None;
      if isPlaying {
        if currentPlayer == White {
          if whiteTime <= 0 {
            isPlaying := false;
            timeoutWinner := Some(Black);
            whiteTime := 0;
          } else {
            whiteTime := whiteTime - 1;
          }
        } else {
          if blackTime <= 0 {
            isPlaying := false;
            timeoutWinner := Some(White);
            blackTime := 0;
          } else {
            blackTime := blackTime - 1;
          }
        }
      }
    }

    /** `handleMove(from, to)`, with the library's answer to the request supplied by `library`. */
    method HandleMove(from: string, to: string, library: Library) returns (outcome: MoveOutcome)
      modifies this
      ensures outcome == MoveOutcomeOf(old(Snapshot()), from, to, library)
      ensures Snapshot() == MoveState(old(Snapshot()), from, to, library)
    {
      if !isPlaying {
        return Paused;
      }
      var piece := PieceAt(board, from);
      if piece.None? || piece.value.color != currentPlayer {
        return NotYourTurn;
      }
      var answer := library(MoveRequest(from, to, Queen));
      if answer.Refused? {
        return InvalidMove;
      }
      board := answer.board;
      var mover := currentPlayer;
      currentPlayer := if currentPlayer == White then Black else White;
      if answer.checkmate {
        isPlaying := false;
        outcome := Moved(CheckmateWonBy(mover));
      } else if answer.draw {
        isPlaying := false;
        outcome := Moved(Drawn);
      } else if answer.stalemate {
        isPlaying := false;
        outcome := Moved(Stalemated);
      } else {
        outcome := Moved(Continues);
      }
    }

    method HandleReset()
      modifies this
      ensures Snapshot() == ResetState(old(Snapshot()))
    {
      board := InitialBoard;
      currentPlayer := White;
      isPlaying := false;
      whiteTime := StartingSeconds;
      blackTime := StartingSeconds;
    }

    method HandlePlayPause()
      modifies this
      ensures Snapshot() == PlayPauseState(old(Snapshot()))
    {
      isPlaying := !isPlaying;
    }
  }
}
