/**
 * Values shared by the three boards (local two-player play, play against
 * the computer, game analysis): colours, pieces and moves as the chess
 * rules engine reports them, the engine's status flags, and the lists of
 * captured-piece icons.
 *
 * The rules engine itself (legality, check and mate detection, SAN
 * generation) is not part of this model: it appears only as an oracle
 * that answers a move request with a move or a rejection.
 */
module ChessTypes {

  datatype Option<+T> = None | Some(value: T)

  datatype Color = White | Black

  function Opponent(c: Color): (o: Color)
    ensures o != c
  {
    if c == White then Black else White
  }

  /** The engine's one-letter colour code, as returned by `turn()`. */
  function ColorCode(c: Color): char
  {
    if c == White then 'w' else 'b'
  }

  /** The colour as the status lines spell it. */
  function ColorName(c: Color): string
  {
    if c == White then "White" else "Black"
  }

  /** A piece as the engine's `get(square)` and `board()` report it: a
      lower-case type letter ('p', 'n', 'b', 'r', 'q', 'k') and a colour. */
  datatype Piece = Piece(kind: char, color: Color)

  /** A move as the engine's `move(...)` returns it: the mover's colour, its
      SAN text and the type letter of the piece it captured, if any. */
  datatype Move = Move(color: Color, san: string, captured: Option<char>)

  /** The argument of the engine's `move({from, to, promotion})`. */
  datatype MoveRequest = MoveRequest(from: string, to: string, promotion: Option<char>)

  /** The engine as an oracle: a legal request yields the move, an illegal one None. */
  type Engine = MoveRequest -> Option<Move>

  /** What a drop handler tells the board widget. */
  datatype DropResult = Snapback | Placed

  /** The engine's status queries at one moment: `turn()`, `in_check()`,
      `in_checkmate()`, `in_stalemate()`, `in_draw()` and `game_over()`.
      They are free inputs here; nothing ties them to each other. */
  datatype EngineView = EngineView(
    turn: Color,
    inCheck: bool,
    inCheckmate: bool,
    inStalemate: bool,
    inDraw: bool,
    gameOver: bool)

  /** `s.startsWith(c)` for a one-character prefix. */
  predicate StartsWith(s: string, c: char)
  {
    |s| > 0 && s[0] == c
  }

  /** `s.endsWith(suffix)`. */
  predicate EndsWith(s: string, suffix: string)
  {
    |suffix| <= |s| && s[|s| - |suffix|..] == suffix
  }

  /** A text ending in another character than the suffix does not end with it. */
  lemma LastCharExcludes(s: string, suffix: string)
    requires |s| > 0 && |suffix| > 0 && s[|s| - 1] != suffix[|suffix| - 1]
    ensures !EndsWith(s, suffix)
  {
    if |suffix| <= |s| {
      assert s[|s| - |suffix|..][|suffix| - 1] == s[|s| - 1];
    }
  }

  /** `a + b` ends with `b` and starts with `a`. */
  lemma ConcatEnds(a: string, b: string)
    ensures EndsWith(a + b, b) && a <= a + b
  {
    assert (a + b)[|a|..] == b;
    assert (a + b)[..|a|] == a;
  }

  /** The colour a board-widget piece code such as "wP" or "bK" names by
      its first letter, if any. */
  function PieceOwner(code: string): Option<Color>
  {
    if StartsWith(code, 'w') then Some(White)
    else if StartsWith(code, 'b') then Some(Black)
    else None
  }

  /** `toUpperCase()` on the engine's ASCII piece letters. */
  function ToUpper(c: char): char
  {
    if 'a' <= c <= 'z' then (c as int - 32) as char else c
  }

  /** The icons of captured pieces: `white` holds the white pieces Black
      has taken, `black` the black pieces White has taken. Each icon is the
      piece's colour code followed by its upper-case type letter ("bQ"). */
  datatype Captures = Captures(white: seq<string>, black: seq<string>)

  const NoCaptures := Captures([], [])

  /** Icon of the piece captured by a move of `mover`. */
  function CaptureIcon(mover: Color, captured: char): string
  {
    [ColorCode(Opponent(mover)), ToUpper(captured)]
  }

  /** Record the capture (if any) of one move: a White capture adds a
      black-piece icon to the black list and vice versa; a move that takes
      nothing changes nothing. */
  function RecordCapture(c: Captures, m: Move): (r: Captures)
    ensures m.captured.None? ==> r == c
    ensures m.captured.Some? && m.color == White ==>
      r.white == c.white && r.black == c.black + [['b', ToUpper(m.captured.value)]]
    ensures m.captured.Some? && m.color == Black ==>
      r.black == c.black && r.white == c.white + [['w', ToUpper(m.captured.value)]]
  {
    match m.captured
    case None => c
    case Some(p) =>
      var icon := CaptureIcon(m.color, p);
      if m.color == White then c.(black := c.black + [icon])
      else c.(white := c.white + [icon])
  }
}
