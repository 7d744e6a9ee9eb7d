/**
 * The chess board component: a click-to-move state machine over one field,
 * `selected` (a square name, "" for none), plus the views it derives from the
 * chess engine. The engine (chess.js) is an oracle: which piece stands on a
 * square, which legal moves start there, the move history and whether the side
 * to move is in check. Chess rules are not modelled.
 */
module ChessBoard {
  import opened Wrappers

  const COL_NAMES: string := "abcdefgh"
  const RANK_NAMES: string := "12345678"
  const SELECTED_COLOR: string := "green"
  const MOVABLE_COLOR: string := "palegreen"

  /** A piece as the engine reports it: type ('p', 'n', ...) and colour ('w' or 'b'). */
  datatype Piece = Piece(kind: char, color: char)

  /** A verbose engine move. */
  datatype Move = Move(from: string, to: string, san: string)

  /** The engine's answers for the position it currently holds. */
  datatype Position = Position(
    pieces: map<string, Piece>,
    legal: map<string, seq<Move>>,
    history: seq<Move>,
    inCheck: bool)
  {
    /** `chess.get(square)` */
    function Get(square: string): Option<Piece> {
      if square in pieces then Some(pieces[square]) else None
    }

    /** `chess.moves({square})` */
    function MovesFrom(square: string): seq<Move> {
      if square in legal then legal[square] else []
    }
  }

  /** `ctx.currentPlayer` as a JavaScript value: a number or a string. */
  datatype PlayerRef = Num(n: int) | Str(s: string)

  /** The props the board reads: `isActive`, `ctx.currentPlayer`, `ctx.winner` ("" when falsy). */
  datatype Props = Props(isActive: bool, currentPlayer: PlayerRef, winner: string)

  /** What one click produces: the new selection and the SAN handed to `moves.move`, if any. */
  datatype ClickOutcome = ClickOutcome(selected: string, issued: Option<string>)

  /**
   * One rendered piece: its square, its React key (the square the move history traces it
   * back to) and the piece.
   */
  datatype Token = Token(square: string, key: string, piece: Piece)

  /**
   * `_getCurrentPlayer`: white exactly when `ctx.currentPlayer === 0`. The comparison is
   * strict, so a player id given as the string "0" is treated as black.
   */
  function CurrentColor(currentPlayer: PlayerRef): (c: char)
    ensures c == 'w' || c == 'b'
    ensures c == 'w' <==> currentPlayer == Num(0)
  {
    if currentPlayer == Num(0) then 'w' else 'b'
  }

  /** `_isSelectable`: the square holds a piece of the current colour that has a legal move. */
  predicate IsSelectable(pos: Position, currentPlayer: PlayerRef, square: string): (r: bool)
    ensures r <==> square in pos.pieces && pos.pieces[square].color == CurrentColor(currentPlayer)
                   && square in pos.legal && pos.legal[square] != []
  {
    match pos.Get(square)
    case None => false
    case Some(piece) => piece.color == CurrentColor(currentPlayer) && |pos.MovesFrom(square)| > 0
  }

  /** `_getMoves`: the legal moves from the selection, none when nothing is selected. */
  function Moves(pos: Position, selected: string): (r: seq<Move>)
    ensures selected == "" ==> r == []
    ensures selected != "" && selected !in pos.legal ==> r == []
    ensures selected in pos.legal && selected != "" ==> r == pos.legal[selected]
  {
    if selected == "" then [] else pos.MovesFrom(selected)
  }

  /** `moves.find(m => m.from === from && m.to === to)`: the index of the first match. */
  function FindMove(moves: seq<Move>, from: string, to: string): (r: Option<nat>)
    ensures r.Some? ==> r.value < |moves| && moves[r.value].from == from && moves[r.value].to == to
    ensures r.Some? ==> forall j :: 0 <= j < r.value ==> !(moves[j].from == from && moves[j].to == to)
    ensures r.None? <==> forall j :: 0 <= j < |moves| ==> !(moves[j].from == from && moves[j].to == to)
  {
    if moves == [] then None
    else if moves[0].from == from && moves[0].to == to then Some(0)
    else
      match FindMove(moves[1..], from, to)
      case Some(i) => Some(i + 1)
      case None => None
  }

  /**
   * `click` as a transition. React batches `setState` inside an event handler, so both
   * tests read `selected` as it was on entry: one click either selects or acts on an
   * existing selection. A found move is issued and the selection is left as it was.
   */
  function ClickStep(pos: Position, props: Props, selected: string, square: string): (r: ClickOutcome)
    ensures !props.isActive ==> r == ClickOutcome(selected, None)
    ensures props.isActive && selected == "" ==>
      r.issued == None &&
      r.selected == (if IsSelectable(pos, props.currentPlayer, square) then square else "")
    ensures props.isActive && selected != "" ==>
      (r.issued.Some? <==> exists m :: m in pos.MovesFrom(selected) && m.from == selected && m.to == square)
    ensures props.isActive && selected != "" && r.issued.Some? ==>
      r.selected == selected &&
      var ms := pos.MovesFrom(selected);
      exists i :: 0 <= i < |ms| && ms[i].from == selected && ms[i].to == square &&
        (forall j :: 0 <= j < i ==> !(ms[j].from == selected && ms[j].to == square)) &&
        r.issued == Some(ms[i].san)
    ensures props.isActive && selected != "" && r.issued.None? ==> r.selected == ""
  {
    if !props.isActive then ClickOutcome(selected, None)
    else
      var afterSelect := if selected == "" && IsSelectable(pos, props.currentPlayer, square) then square else selected;
      if selected == "" then ClickOutcome(afterSelect, None)
      else
        var moves := Moves(pos, selected);
        match FindMove(moves, selected, square)
        case Some(i) => ClickOutcome(afterSelect, Some(moves[i].san))
        case None => ClickOutcome("", None)
  }

  /** The squares the given moves lead to. */
  function Destinations(moves: seq<Move>): set<string> {
    set m | m in moves :: m.to
  }

  /**
   * `_getInitialCell`'s specification: walk the history from the newest move to the
   * oldest, following a square back to where the piece on it came from.
   */
  function Origin(history: seq<Move>, square: string): string {
    if history == [] then square
    else
      var last := history[|history| - 1];
      Origin(history[..|history| - 1], if square == last.to then last.from else square)
  }

  /** A square no move ever landed on is its own origin. */
  lemma {:induction false} OriginOfUntouched(history: seq<Move>, square: string)
    requires forall i :: 0 <= i < |history| ==> history[i].to != square
    ensures Origin(history, square) == square
  {
    if history != [] {
      OriginOfUntouched(history[..|history| - 1], square);
    }
  }

  /** The origin is the square itself or the source square of some move in the history. */
  lemma {:induction false} OriginIsSquareOrSource(history: seq<Move>, square: string)
    ensures Origin(history, square) == square ||
            exists i :: 0 <= i < |history| && Origin(history, square) == history[i].from
  {
    if history != [] {
      var n := |history| - 1;
      var next := if square == history[n].to then history[n].from else square;
      OriginIsSquareOrSource(history[..n], next);
      if Origin(history[..n], next) != next {
        var i :| 0 <= i < n && Origin(history[..n], next) == history[..n][i].from;
        assert history[..n][i] == history[i];
      }
    }
  }

  /** Appending a move that lands on a square sends that square back to the move's source. */
  lemma OriginThroughLastMove(history: seq<Move>, m: Move)
    ensures Origin(history + [m], m.to) == Origin(history, m.from)
  {
    assert (history + [m])[..|history|] == history;
  }

  /** The name of the square in column `x` (0-based) and rank `y` (1-based). */
  function SquareName(x: nat, y: nat): (name: string)
    requires x < 8 && 1 <= y <= 8
    ensures |name| == 2 && name[0] == COL_NAMES[x] && name[1] == RANK_NAMES[y - 1]
  {
    [COL_NAMES[x]] + [RANK_NAMES[y - 1]]
  }

  /** The squares of rank `y`, file a to h. */
  function RankSquares(y: nat): (squares: seq<string>)
    requires 1 <= y <= 8
    ensures |squares| == 8 && forall x :: 0 <= x < 8 ==> squares[x] == SquareName(x, y)
  {
    seq(8, x requires 0 <= x < 8 => SquareName(x, y))
  }

  /** The squares of ranks 1 to `y` in the order `_getPieces` visits them: rank by rank, file a to h. */
  function BoardOrder(y: nat): seq<string>
    requires y <= 8
  {
    if y == 0 then [] else BoardOrder(y - 1) + RankSquares(y)
  }

  /** The tokens rendered for the occupied squares among `squares`, in order. */
  function OccupiedTokens(pos: Position, squares: seq<string>): seq<Token> {
    if squares == [] then []
    else
      var n := |squares| - 1;
      var sq := squares[n];
      OccupiedTokens(pos, squares[..n]) +
        (if sq in pos.pieces then [Token(sq, Origin(pos.history, sq), pos.pieces[sq])] else [])
  }

  /** Visiting one more square renders one more token exactly when it is occupied. */
  lemma OccupiedTokensSnoc(pos: Position, squares: seq<string>, sq: string)
    ensures OccupiedTokens(pos, squares + [sq]) == OccupiedTokens(pos, squares) +
      (if sq in pos.pieces then [Token(sq, Origin(pos.history, sq), pos.pieces[sq])] else [])
  {
    assert (squares + [sq])[..|squares|] == squares;
  }

  /** Rendering two runs of squares renders each in turn. */
  lemma {:induction false} OccupiedTokensAppend(pos: Position, a: seq<string>, b: seq<string>)
    ensures OccupiedTokens(pos, a + b) == OccupiedTokens(pos, a) + OccupiedTokens(pos, b)
  {
    if b == [] {
      assert a + b == a;
    } else {
      var n := |b| - 1;
      assert (a + b)[..|a| + n] == a + b[..n];
      OccupiedTokensAppend(pos, a, b[..n]);
    }
  }

  /** Every rendered token stands on an occupied square, carries that piece and its origin as key. */
  lemma {:induction false} TokensAreOccupied(pos: Position, squares: seq<string>)
    ensures forall t :: t in OccupiedTokens(pos, squares) ==>
      t.square in squares && t.square in pos.pieces && t.piece == pos.pieces[t.square] &&
      t.key == Origin(pos.history, t.square)
  {
    if squares != [] {
      var n := |squares| - 1;
      TokensAreOccupied(pos, squares[..n]);
      forall t | t in OccupiedTokens(pos, squares[..n]) ensures t.square in squares {
        assert t.square in squares[..n];
      }
    }
  }

  /** Every occupied square among `squares` gets a token. */
  lemma {:induction false} OccupiedSquaresAreRendered(pos: Position, squares: seq<string>, sq: string)
    requires sq in squares && sq in pos.pieces
    ensures Token(sq, Origin(pos.history, sq), pos.pieces[sq]) in OccupiedTokens(pos, squares)
  {
    var n := |squares| - 1;
    if squares[n] != sq {
      assert sq in squares[..n] by {
        var i :| 0 <= i < |squares| && squares[i] == sq;
        assert i < n && squares[..n][i] == sq;
      }
      OccupiedSquaresAreRendered(pos, squares[..n], sq);
    }
  }

  /** Every square of ranks 1 to `k` is visited. */
  lemma {:induction false} GridSquareVisited(x: nat, y: nat, k: nat)
    requires x < 8 && 1 <= y <= k <= 8
    ensures SquareName(x, y) in BoardOrder(k)
  {
    if y < k {
      GridSquareVisited(x, y, k - 1);
    } else {
      assert RankSquares(y)[x] == SquareName(x, y);
    }
  }

  /** Every occupied square of the 8x8 board is rendered, keyed by its origin. */
  lemma EveryOccupiedSquareRendered(pos: Position, x: nat, y: nat)
    requires x < 8 && 1 <= y <= 8 && SquareName(x, y) in pos.pieces
    ensures var sq := SquareName(x, y);
      Token(sq, Origin(pos.history, sq), pos.pieces[sq]) in OccupiedTokens(pos, BoardOrder(8))
  {
    GridSquareVisited(x, y, 8);
    OccupiedSquaresAreRendered(pos, BoardOrder(8), SquareName(x, y));
  }

  /**
   * `_getStatus`: a recognised winner ('b', 'w', 'd') decides the message and overrides
   * "CHECK"; otherwise "CHECK" exactly when in check; otherwise nothing is rendered.
   */
  function Status(inCheck: bool, winner: string): (message: Option<string>)
    ensures winner == "b" ==> message == Some("Black won!")
    ensures winner == "w" ==> message == Some("White won!")
    ensures winner == "d" ==> message == Some("Draw!")
    ensures winner != "b" && winner != "w" && winner != "d" ==>
      (message.Some? <==> inCheck) && (message.Some? ==> message.value == "CHECK")
  {
    var afterCheck := if inCheck then Some("CHECK") else None;
    if winner == "" then afterCheck
    else if winner == "b" then Some("Black won!")
    else if winner == "w" then Some("White won!")
    else if winner == "d" then Some("Draw!")
    else afterCheck
  }

  /** Spec of the board: a selection, when set, names a selectable square. Clicks keep it so. */
  lemma ClickKeepsSelectionOwned(pos: Position, props: Props, selected: string, square: string)
    requires selected == "" || IsSelectable(pos, props.currentPlayer, selected)
    ensures var r := ClickStep(pos, props, selected, square);
      r.selected == "" || IsSelectable(pos, props.currentPlayer, r.selected)
  {
  }

  /** The chess board component; `position` is the state of its chess.js instance. */
  class Board {
    var selected: string
    var position: Position

    constructor (start: Position)
      ensures selected == "" && position == start
    {
      selected := "";
      position := start;
    }

    /**
     * `componentWillReceiveProps`: a truthy `G.pgn` reloads the engine (`loaded` is the
     * engine's state after `load_pgn`) and clears the selection; otherwise nothing changes.
     */
    method ReceiveProps(pgn: string, loaded: Position)
      modifies this
      ensures pgn != "" ==> position == loaded && selected == ""
      ensures pgn == "" ==> position == old(position) && selected == old(selected)
    {
      if pgn != "" {
        position := loaded;
        selected := "";
      }
    }

    /** `click`: returns the SAN passed to `moves.move`, if one was issued. */
    method Click(props: Props, square: string) returns (issued: Option<string>)
      modifies this`selected
      ensures ClickOutcome(selected, issued) == ClickStep(position, props, old(selected), square)
    {
      issued := None;
      if !props.isActive {
        return;
      }
      var onEntry := selected;
      if onEntry == "" && IsSelectable(position, props.currentPlayer, square) {
        selected := square;
      }
      if onEntry != "" {
        var moves := Moves(position, onEntry);
        var found := FindMove(moves, onEntry, square);
        if found.Some? {
          issued := Some(moves[found.value].san);
        } else {
          selected := "";
        }
      }
    }

    /**
     * `_getHighlightedSquares`: the selection maps to SELECTED_COLOR, then every destination
     * of its legal moves to MOVABLE_COLOR (written last, so they win on overlap).
     */
    method HighlightedSquares() returns (colors: map<string, string>)
      ensures colors.Keys == (if selected == "" then {} else {selected}) + Destinations(Moves(position, selected))
      ensures forall sq :: sq in colors ==>
        colors[sq] == if sq in Destinations(Moves(position, selected)) then MOVABLE_COLOR else SELECTED_COLOR
    {
      colors := map[];
      if selected != "" {
        colors := colors[selected := SELECTED_COLOR];
      }
      var moves := Moves(position, selected);
      var i := 0;
      while i < |moves|
        invariant 0 <= i <= |moves|
        invariant colors.Keys == (if selected == "" then {} else {selected}) + Destinations(moves[..i])
        invariant forall sq :: sq in colors ==>
          colors[sq] == if sq in Destinations(moves[..i]) then MOVABLE_COLOR else SELECTED_COLOR
      {
        assert moves[..i + 1] == moves[..i] + [moves[i]];
        colors := colors[moves[i].to := MOVABLE_COLOR];
        i := i + 1;
      }
      assert moves[..i] == moves;
    }

    /** `_getInitialCell`: follows the square back through the history, newest move first. */
    method InitialCell(square: string) returns (lastSeen: string)
      ensures lastSeen == Origin(position.history, square)
    {
      var history := position.history;
      lastSeen := square;
      var i := |history| - 1;
      assert history[..i + 1] == history;
      while i >= 0
        invariant -1 <= i < |history|
        invariant Origin(history, square) == Origin(history[..i + 1], lastSeen)
      {
        assert history[..i + 1][..i] == history[..i];
        if lastSeen == history[i].to {
          lastSeen := history[i].from;
        }
        i := i - 1;
      }
    }

    /** `_getPieces` (square enumeration): one token per occupied square, rank by rank. */
    method Pieces() returns (tokens: seq<Token>)
      ensures tokens == OccupiedTokens(position, BoardOrder(8))
    {
      tokens := [];
      var y := 1;
      while y <= 8
        invariant 1 <= y <= 9
        invariant tokens == OccupiedTokens(position, BoardOrder(y - 1))
      {
        var row := RankTokens(y);
        OccupiedTokensAppend(position, BoardOrder(y - 1), RankSquares(y));
        tokens := tokens + row;
        y := y + 1;
      }
    }

    /** The inner loop of `_getPieces`: the tokens of one rank, file a to h. */
    method RankTokens(y: nat) returns (tokens: seq<Token>)
      requires 1 <= y <= 8
      ensures tokens == OccupiedTokens(position, RankSquares(y))
    {
      ghost var rank := RankSquares(y);
      tokens := [];
      var x := 0;
      while x < 8
        invariant 0 <= x <= 8
        invariant tokens == OccupiedTokens(position, rank[..x])
      {
        var square := SquareName(x, y);
        assert rank[..x + 1] == rank[..x] + [square];
        OccupiedTokensSnoc(position, rank[..x], square);
        match position.Get(square) {
          case Some(p) =>
            var key := InitialCell(square);
            tokens := tokens + [Token(square, key, p)];
          case None =>
        }
        x := x + 1;
      }
      assert rank[..8] == rank;
    }
  }
}
