/**
 * The board against the computer (static/js/play_vs_ai.js): its input
 * guards, the move list and its row layout, the forfeit and draw-offer
 * handlers, the status line, and the split of the computer's move string.
 *
 * The rules engine, the board widget, the DOM, saved state and the
 * network calls are not modelled; their answers are parameters.
 */
module PlayVsAi {
  import opened ChessTypes
  import opened Notation

  /** The player's colour from the saved settings, "white" when none are
      saved (`aiSettings ? aiSettings.playerColor : 'white'`). */
  function PlayerColor(settings: Option<string>): string
  {
    if settings.Some? then settings.value else "white"
  }

  /** The colour the computer plays: the one whose code is the first letter
      of `playerColor === 'white' ? 'black' : 'white'`. */
  function ComputerColor(playerColor: string): Color
  {
    if playerColor == "white" then Black else White
  }

  /** Nothing on the board may be touched: not started, over, forfeited or drawn. */
  predicate BoardLocked(started: bool, forfeited: bool, drawn: bool, view: EngineView)
  {
    !started || view.gameOver || forfeited || drawn
  }

  /** A widget piece code of the computer's colour. */
  predicate ComputerPieceCode(playerColor: string, code: string)
  {
    (playerColor == "white" && StartsWith(code, 'b')) || (playerColor == "black" && StartsWith(code, 'w'))
  }

  /** A widget piece code of the side not to move. */
  predicate OffTurnPieceCode(turn: Color, code: string)
  {
    (turn == White && StartsWith(code, 'b')) || (turn == Black && StartsWith(code, 'w'))
  }

  /** The three refusals of `onDragStart` that come before the selection toggle. */
  predicate DragRefused(started: bool, forfeited: bool, drawn: bool, view: EngineView,
                        playerColor: string, code: string)
  {
    BoardLocked(started, forfeited, drawn, view)
    || ComputerPieceCode(playerColor, code)
    || OffTurnPieceCode(view.turn, code)
  }

  /** A piece that gets past the drag guards belongs to the side to move and,
      when the player's colour is set, to the player; and the game is on. */
  lemma DragGuardOwnership(started: bool, forfeited: bool, drawn: bool, view: EngineView,
                           playerColor: string, code: string)
    requires !DragRefused(started, forfeited, drawn, view, playerColor, code)
    ensures started && !view.gameOver && !forfeited && !drawn
    ensures PieceOwner(code).Some? ==> PieceOwner(code) == Some(view.turn)
    ensures PieceOwner(code).Some? && playerColor == "white" ==> PieceOwner(code) == Some(White)
    ensures PieceOwner(code).Some? && playerColor == "black" ==> PieceOwner(code) == Some(Black)
  {
  }

  /** A drop is a promotion exactly when the piece on the source square is a
      pawn and the target square's rank character is '8' or '1'. */
  predicate IsPromotion(pieceAt: Option<Piece>, target: string)
  {
    pieceAt.Some? && pieceAt.value.kind == 'p' && |target| >= 2 && (target[1] == '8' || target[1] == '1')
  }

  /** The promotion piece `onDrop` sends to the engine. `answer` is what the
      prompt returned (None when it was cancelled). It is always one of
      q, r, b, n: the player's answer when the drop is a promotion and the
      answer is one of them, and a queen otherwise. */
  function PromotionPiece(pieceAt: Option<Piece>, target: string, answer: Option<string>): (p: char)
    ensures p in "qrbn"
    ensures !IsPromotion(pieceAt, target) ==> p == 'q'
    ensures IsPromotion(pieceAt, target) && answer.Some? && answer.value in ["q", "r", "b", "n"] ==>
      [p] == answer.value
    ensures IsPromotion(pieceAt, target) && !(answer.Some? && answer.value in ["q", "r", "b", "n"]) ==>
      p == 'q'
  {
    if IsPromotion(pieceAt, target) && answer.Some? && answer.value in ["q", "r", "b", "n"]
    then answer.value[0]
    else 'q'
  }

  /** JavaScript's `s.slice(a, b)` for 0 <= a <= b: indices past the end are clamped. */
  function Slice(s: string, a: nat, b: nat): string
    requires a <= b
  {
    var lo := if a < |s| then a else |s|;
    var hi := if b < |s| then b else |s|;
    s[lo..hi]
  }

  /** The split of the computer's move string in `checkComputerTurn`: source
      square from characters 0-1, target from 2-3, and a promotion piece,
      character 4, exactly when the string is longer than four characters. */
  function SplitMoveString(s: string): (r: MoveRequest)
    ensures |s| >= 4 ==> |r.from| == 2 && |r.to| == 2 && r.from + r.to == s[..4]
    ensures r.promotion.Some? <==> |s| > 4
    ensures |s| > 4 ==> r.promotion == Some(s[4])
  {
    MoveRequest(Slice(s, 0, 2), Slice(s, 2, 4), if |s| > 4 then Some(s[4]) else None)
  }

  /** The coordinate move string the move service writes for a request. */
  function MoveString(r: MoveRequest): string
  {
    r.from + r.to + (if r.promotion.Some? then [r.promotion.value] else [])
  }

  /** Splitting a four- or five-character move string and writing it back
      gives the same string. */
  lemma SplitThenJoin(s: string)
    requires 4 <= |s| <= 5
    ensures MoveString(SplitMoveString(s)) == s
  {
    var r := SplitMoveString(s);
    if |s| == 5 {
      assert s == s[..4] + [s[4]];
    } else {
      assert s == s[..4];
    }
  }

  /** Writing a request with two-character squares and splitting it again
      gives the same request. */
  lemma JoinThenSplit(r: MoveRequest)
    requires |r.from| == 2 && |r.to| == 2
    ensures SplitMoveString(MoveString(r)) == r
  {
    var s := MoveString(r);
    assert s[..2] == r.from;
    assert s[2..4] == r.to;
  }

  /** The status line and its style class, as `updateGameStatus` chooses
      them. */
  datatype StatusView = StatusView(text: string, className: string)

  /** `updateGameStatus`: the status line and its class. */
  function AiStatus(forfeited: bool, drawn: bool, view: EngineView): StatusView
  {
    var moveColor := if view.turn == White then "White" else "Black";
    if forfeited then StatusView("Game forfeited!", "status-forfeit")
    else if drawn then StatusView("Game drawn by agreement!", "status-draw")
    else if view.gameOver then
      if view.inCheckmate then StatusView("Checkmate! " + moveColor + " loses.", "status-checkmate")
      else if view.inDraw then StatusView("Game drawn!", "status-draw")
      else StatusView("Game over!", "status-over")
    else if view.inCheck then StatusView(moveColor + " to move (in check)", "status-check")
    else StatusView(moveColor + " to move", if view.turn == White then "status-white" else "status-black")
  }

  /** The precedence of `updateGameStatus` for finished games: forfeit
      first, then a draw by agreement, then the engine's game-over cases
      (checkmate, where the side to move loses; draw; any other end). Each
      of these texts belongs to exactly one case, and the "status-draw"
      class marks exactly the two kinds of draw. */
  lemma AiStatusPrecedence(forfeited: bool, drawn: bool, view: EngineView)
    ensures var s := AiStatus(forfeited, drawn, view);
      && (s.text == "Game forfeited!" <==> forfeited)
      && (s.text == "Game drawn by agreement!" <==> !forfeited && drawn)
      && (s.text == "Checkmate! " + ColorName(view.turn) + " loses." <==>
            !forfeited && !drawn && view.gameOver && view.inCheckmate)
      && (s.text == "Game drawn!" <==>
            !forfeited && !drawn && view.gameOver && !view.inCheckmate && view.inDraw)
      && (s.text == "Game over!" <==>
            !forfeited && !drawn && view.gameOver && !view.inCheckmate && !view.inDraw)
      && (s.className == "status-draw" <==>
            !forfeited && (drawn || (view.gameOver && !view.inCheckmate && view.inDraw)))
  {
    var s := AiStatus(forfeited, drawn, view);
    var name := ColorName(view.turn);
    var mate := "Checkmate! " + name + " loses.";
    if forfeited || drawn {
    } else if view.gameOver {
      if view.inCheckmate {
        assert s.text == mate;
      } else {
        assert mate[0] == 'C';
      }
    } else {
      assert mate[0] == 'C';
      assert s.text[0] == name[0];
      assert s.text[0] != 'G' && s.text[0] != 'C';
    }
  }

  /** While the game runs, the status line starts "<side> to move", and the
      " (in check)" suffix appears exactly then and only in check. */
  lemma AiStatusRunning(forfeited: bool, drawn: bool, view: EngineView)
    ensures var s := AiStatus(forfeited, drawn, view);
      && (EndsWith(s.text, " (in check)") <==> !forfeited && !drawn && !view.gameOver && view.inCheck)
      && (!forfeited && !drawn && !view.gameOver ==> ColorName(view.turn) + " to move" <= s.text)
  {
    var t := AiStatus(forfeited, drawn, view).text;
    var name := ColorName(view.turn);
    var notice := " (in check)";
    assert notice[|notice| - 1] == ')';
    if !forfeited && !drawn && !view.gameOver {
      var front := name + " to move";
      ConcatEnds(front, "");
      if view.inCheck {
        assert t == front + notice;
        ConcatEnds(front, notice);
      } else {
        assert t == front + "";
        assert t[|t| - 1] == 'e';
        LastCharExcludes(t, notice);
      }
    } else {
      assert t[|t| - 1] in "!.";
      LastCharExcludes(t, notice);
    }
  }

  /** One row of the move table: the move number, White's move with its
      number stripped, and Black's move ("" until it is played). */
  datatype Row = Row(number: nat, white: string, black: string)

  /** Row k of the table once the first `upto` entries are laid out, with
      `strip` applied to White's entries: numbered k + 1, entry 2k stripped
      in the White cell, entry 2k + 1 (or nothing yet) in the Black cell. */
  function RowAt(moveList: seq<string>, upto: nat, k: nat, strip: string -> string): Row
    requires 2 * k < upto <= |moveList|
  {
    Row(k + 1, strip(moveList[2 * k]), if 2 * k + 1 < upto then moveList[2 * k + 1] else "")
  }

  /** The rows `updateMoveListDisplay` has built after visiting the first
      `upto` entries, one step per entry: an entry at an even index opens a
      new row numbered index/2 + 1 holding the entry as `strip` leaves it;
      an entry at an odd index fills the Black cell of the current (last)
      row. The display strips with `StripNumber`; the shape of the layout
      does not depend on what `strip` does. */
  function RowsUpTo(moveList: seq<string>, upto: nat, strip: string -> string): seq<Row>
    requires upto <= |moveList|
  {
    if upto == 0 then []
    else
      var rows := RowsUpTo(moveList, upto - 1, strip);
      var index := upto - 1;
      if index % 2 == 0 then rows + [Row(index / 2 + 1, strip(moveList[index]), "")]
      else if |rows| > 0 then rows[|rows| - 1 := rows[|rows| - 1].(black := moveList[index])]
      else rows
  }

  /** The rows `updateMoveListDisplay` lays out for the whole list. */
  function RowLayout(moveList: seq<string>): seq<Row>
  {
    RowsUpTo(moveList, |moveList|, StripNumber)
  }

  /** The layout, row by row: ceil(n/2) rows, row k as `RowAt` says. */
  lemma {:induction false} RowsUpToShape(moveList: seq<string>, upto: nat, strip: string -> string)
    requires upto <= |moveList|
    ensures |RowsUpTo(moveList, upto, strip)| == (upto + 1) / 2
    ensures forall k :: 0 <= k < (upto + 1) / 2 ==>
      RowsUpTo(moveList, upto, strip)[k] == RowAt(moveList, upto, k, strip)
  {
    if upto > 0 {
      RowsUpToShape(moveList, upto - 1, strip);
      RowsStep(moveList, upto - 1, upto, RowsUpTo(moveList, upto - 1, strip), strip);
    }
  }

  /** One step of the layout, from the rows `before` built over the first
      `index` entries to those built over `upto` = index + 1, keeps it in
      the shape `RowsUpToShape` states. */
  lemma RowsStep(moveList: seq<string>, index: nat, upto: nat, before: seq<Row>, strip: string -> string)
    requires upto == index + 1 && upto <= |moveList|
    requires before == RowsUpTo(moveList, index, strip) && |before| == (index + 1) / 2
    requires forall k :: 0 <= k < |before| ==> before[k] == RowAt(moveList, index, k, strip)
    ensures |RowsUpTo(moveList, upto, strip)| == (upto + 1) / 2
    ensures forall k :: 0 <= k < (upto + 1) / 2 ==>
      RowsUpTo(moveList, upto, strip)[k] == RowAt(moveList, upto, k, strip)
  {
    var h := index / 2;
    HalfOf(h);
    if index == 2 * h {
      OpenRow(moveList, index, upto, h, before, strip);
    } else {
      FillRow(moveList, index, upto, h, before, strip);
    }
  }

  /** Parity and halves of the two entries of row h. */
  lemma HalfOf(h: nat)
    ensures (2 * h) % 2 == 0 && (2 * h) / 2 == h && (2 * h + 2) / 2 == h + 1
    ensures (2 * h + 1) % 2 == 1 && (2 * h + 1) / 2 == h && (2 * h + 3) / 2 == h + 1
  {
  }

  /** Entry `index` = 2h opens row h. */
  lemma OpenRow(moveList: seq<string>, index: nat, upto: nat, h: nat, before: seq<Row>, strip: string -> string)
    requires index == 2 * h && upto == index + 1 && upto <= |moveList|
    requires before == RowsUpTo(moveList, index, strip) && |before| == h
    requires forall k :: 0 <= k < h ==> before[k] == RowAt(moveList, index, k, strip)
    ensures |RowsUpTo(moveList, upto, strip)| == h + 1
    ensures forall k :: 0 <= k < h + 1 ==>
      RowsUpTo(moveList, upto, strip)[k] == RowAt(moveList, upto, k, strip)
  {
    HalfOf(h);
    var rows := RowsUpTo(moveList, upto, strip);
    assert rows == before + [Row(h + 1, strip(moveList[index]), "")];
    forall k | 0 <= k < h + 1 ensures rows[k] == RowAt(moveList, upto, k, strip) {
      if k < h {
        assert rows[k] == before[k];
      }
    }
  }

  /** Entry `index` = 2h + 1 fills the Black cell of row h. */
  lemma FillRow(moveList: seq<string>, index: nat, upto: nat, h: nat, before: seq<Row>, strip: string -> string)
    requires index == 2 * h + 1 && upto == index + 1 && upto <= |moveList|
    requires before == RowsUpTo(moveList, index, strip) && |before| == h + 1
    requires forall k :: 0 <= k < h + 1 ==> before[k] == RowAt(moveList, index, k, strip)
    ensures |RowsUpTo(moveList, upto, strip)| == h + 1
    ensures forall k :: 0 <= k < h + 1 ==>
      RowsUpTo(moveList, upto, strip)[k] == RowAt(moveList, upto, k, strip)
  {
    HalfOf(h);
    var rows := RowsUpTo(moveList, upto, strip);
    assert rows == before[h := before[h].(black := moveList[index])];
    forall k | 0 <= k < h + 1 ensures rows[k] == RowAt(moveList, upto, k, strip) {
      if k < h {
        assert 2 * k + 1 < index;
        assert rows[k] == before[k] == RowAt(moveList, index, k, strip);
      } else {
        var r := before[h];
        assert r == Row(h + 1, strip(moveList[2 * h]), "");
        assert rows[h] == Row(h + 1, strip(moveList[2 * h]), moveList[index]);
      }
    }
  }

  /** `updateMoveListDisplay`: ceil(n/2) rows; row k is numbered k + 1 and
      shows entry 2k with its number stripped and entry 2k + 1 (or an empty
      cell when there is none). */
  method MoveRows(moveList: seq<string>) returns (rows: seq<Row>)
    ensures |rows| == (|moveList| + 1) / 2
    ensures forall k :: 0 <= k < |rows| ==>
      && rows[k].number == k + 1
      && rows[k].white == StripNumber(moveList[2 * k])
      && rows[k].black == (if 2 * k + 1 < |moveList| then moveList[2 * k + 1] else "")
    ensures rows == RowLayout(moveList)
  {
    rows := [];
    var index := 0;
    while index < |moveList|
      invariant 0 <= index <= |moveList|
      invariant rows == RowsUpTo(moveList, index, StripNumber)
    {
      if index % 2 == 0 {
        rows := rows + [Row(index / 2 + 1, StripNumber(moveList[index]), "")];
      } else if |rows| > 0 {
        var current := rows[|rows| - 1];
        rows := rows[|rows| - 1 := current.(black := moveList[index])];
      }
      index := index + 1;
    }
    RowsUpToShape(moveList, |moveList|, StripNumber);
  }

  /** The moves alternate colours starting with White. */
  predicate Alternating(ms: seq<Move>)
  {
    forall i :: 0 <= i < |ms| ==> ms[i].color == (if i % 2 == 0 then White else Black)
  }

  /** For a game that alternates from White, laid out from the list
      `addMoveToList` built: row k is numbered k + 1, the number stored in
      entry 2k, and shows the SAN of move 2k in the White cell and that of
      move 2k + 1 (or nothing) in the Black cell. */
  lemma AlternatingRows(ms: seq<Move>)
    requires Alternating(ms)
    requires forall i :: 0 <= i < |ms| ==> SanShape(ms[i].san)
    ensures var l := BuildList(ms);
      var rows := RowLayout(l);
      && |rows| == (|ms| + 1) / 2
      && forall k :: 0 <= k < |rows| ==>
           && PrefixNumber(l[2 * k]) == Some(k + 1)
           && rows[k] == Row(k + 1, ms[2 * k].san, if 2 * k + 1 < |ms| then ms[2 * k + 1].san else "")
  {
    var l := BuildList(ms);
    var rows := RowLayout(l);
    RowsUpToShape(l, |l|, StripNumber);
    forall k | 0 <= k < |rows|
      ensures PrefixNumber(l[2 * k]) == Some(k + 1)
      ensures rows[k] == Row(k + 1, ms[2 * k].san, if 2 * k + 1 < |ms| then ms[2 * k + 1].san else "")
    {
      EntryRow(ms, k);
    }
  }

  /** One row of `AlternatingRows`. */
  lemma EntryRow(ms: seq<Move>, k: nat)
    requires Alternating(ms)
    requires forall i :: 0 <= i < |ms| ==> SanShape(ms[i].san)
    requires 2 * k < |ms|
    ensures var l := BuildList(ms);
      && PrefixNumber(l[2 * k]) == Some(k + 1)
      && RowAt(l, |l|, k, StripNumber) == Row(k + 1, ms[2 * k].san, if 2 * k + 1 < |ms| then ms[2 * k + 1].san else "")
  {
    AlternatingPair(ms, k);
    var l := BuildList(ms);
    var w := ms[2 * k];
    assert l[2 * k] == MoveNotation(2 * k, w);
    WhiteEntry(k, w);
    if 2 * k + 1 < |ms| {
      assert l[2 * k + 1] == MoveNotation(2 * k + 1, ms[2 * k + 1]);
    }
  }

  /** Move 2k of an alternating game is White's and move 2k + 1 Black's. */
  lemma AlternatingPair(ms: seq<Move>, k: nat)
    requires Alternating(ms) && 2 * k < |ms|
    ensures ms[2 * k].color == White
    ensures 2 * k + 1 < |ms| ==> ms[2 * k + 1].color == Black
  {
  }

  /** The White entry opening row k reads back as its SAN and the number k + 1. */
  lemma WhiteEntry(k: nat, w: Move)
    requires w.color == White && SanShape(w.san)
    ensures StripNumber(MoveNotation(2 * k, w)) == w.san
    ensures PrefixNumber(MoveNotation(2 * k, w)) == Some(k + 1)
  {
    NotationRoundTrip(2 * k, w);
    assert MoveNumber(2 * k) == k + 1;
  }

  /** The forfeit entry as written: its number is ceil(n/2). When White
      forfeits at its turn (n even in a game that alternates from White),
      that is one less than the number of the row it opens; the row layout
      strips it, so the row still shows the right number and the text
      "White forfeits". */
  lemma WhiteForfeitRow(moveList: seq<string>)
    requires |moveList| % 2 == 0
    ensures var l := moveList + [ForfeitEntry(|moveList|, White)];
      && PrefixNumber(l[|moveList|]) == Some(|moveList| / 2)
      && |RowLayout(l)| == |moveList| / 2 + 1
      && RowLayout(l)[|moveList| / 2] == Row(|moveList| / 2 + 1, "White forfeits", "")
  {
    var h := |moveList| / 2;
    assert (|moveList| + 1) / 2 == h && 2 * h == |moveList|;
    ForfeitEntryReads(h);
    var l := moveList + [ForfeitEntry(|moveList|, White)];
    assert l[|moveList|] == ForfeitEntry(|moveList|, White);
    RowsUpToShape(l, |l|, StripNumber);
    assert RowLayout(l)[h] == RowAt(l, |l|, h, StripNumber);
  }

  /** White's forfeit entry at an even count 2h reads back as the number h
      and the text "White forfeits". */
  lemma ForfeitEntryReads(h: nat)
    ensures StripNumber(ForfeitEntry(2 * h, White)) == "White forfeits"
    ensures PrefixNumber(ForfeitEntry(2 * h, White)) == Some(h)
  {
    assert (2 * h + 1) / 2 == h;
    assert ForfeitEntry(2 * h, White) == DecimalString(h) + ". " + "White forfeits";
    StripNumbered(h, "White forfeits");
  }

  /** What `saveGameState` writes to local storage and `loadGameState`
      reads back: the position, the move list and the started flag. */
  datatype SavedState = SavedState(fen: string, moves: seq<string>, started: bool)

  /** The engine answering the moves `loadGameState` replays after
      `load(fen)`: `replay(fen, sans)` is what `move(san)` returns for the
      last SAN of `sans` once the earlier ones have been attempted. */
  type PositionReplayer = (string, seq<string>) -> Option<Move>

  /** The position `new Chess()` and `reset()` start from. */
  const StartFen := "rnbqkbnr/pppppppp/8/8/8/8/PPPPPPPP/RNBQKBNR w KQkq - 0 1"

  /** The SANs the loader hands to the engine: each entry with its number stripped. */
  function Sans(entries: seq<string>): (sans: seq<string>)
    ensures |sans| == |entries|
    ensures forall i :: 0 <= i < |entries| ==> sans[i] == StripNumber(entries[i])
  {
    seq(|entries|, i requires 0 <= i < |entries| => StripNumber(entries[i]))
  }

  /** The loader's stripping undoes `addMoveToList`: the SANs it reads
      from a list built by playing `ms` are the SANs of `ms`. */
  lemma SansOfBuildList(ms: seq<Move>)
    requires forall i :: 0 <= i < |ms| ==> SanShape(ms[i].san)
    ensures Sans(BuildList(ms)) == seq(|ms|, i requires 0 <= i < |ms| => ms[i].san)
  {
    var l := BuildList(ms);
    forall i | 0 <= i < |ms| ensures Sans(l)[i] == ms[i].san {
      NotationRoundTrip(i, ms[i]);
    }
  }

  /** The moves the engine accepts among the first `k` SANs, in order. */
  function AcceptedMoves(fen: string, sans: seq<string>, k: nat, replay: PositionReplayer): (ms: seq<Move>)
    requires k <= |sans|
    ensures |ms| <= k
  {
    if k == 0 then []
    else
      var before := AcceptedMoves(fen, sans, k - 1, replay);
      match replay(fen, sans[..k])
      case None => before
      case Some(m) => before + [m]
  }

  /** `list` after `addMoveToList` has been applied to each of `ms` in turn. */
  function AppendEntries(list: seq<string>, ms: seq<Move>): (r: seq<string>)
    ensures |r| == |list| + |ms|
    ensures r[..|list|] == list
  {
    if ms == [] then list
    else
      var l := AppendEntries(list, ms[..|ms| - 1]);
      l + [MoveNotation(|l|, ms[|ms| - 1])]
  }

  /** The icons after recording the captures of `ms` in turn. */
  function RecordAll(c: Captures, ms: seq<Move>): Captures
  {
    if ms == [] then c else RecordCapture(RecordAll(c, ms[..|ms| - 1]), ms[|ms| - 1])
  }

  /** The list after the replay loop of `loadGameState` has tried the first
      `k` SANs on the engine loaded with `fen`: each accepted move appends
      its entry. */
  function ListReplayed(list: seq<string>, fen: string, sans: seq<string>, k: nat,
                        replay: PositionReplayer): seq<string>
    requires k <= |sans|
  {
    if k == 0 then list
    else
      var l := ListReplayed(list, fen, sans, k - 1, replay);
      match replay(fen, sans[..k])
      case None => l
      case Some(m) => l + [MoveNotation(|l|, m)]
  }

  /** The icons after the same loop: each accepted move records its capture. */
  function CapturesReplayed(c: Captures, fen: string, sans: seq<string>, k: nat,
                            replay: PositionReplayer): Captures
    requires k <= |sans|
  {
    if k == 0 then c
    else
      var before := CapturesReplayed(c, fen, sans, k - 1, replay);
      match replay(fen, sans[..k])
      case None => before
      case Some(m) => RecordCapture(before, m)
  }

  /** The loop's list is the list with the entries of the accepted moves
      appended, in order. */
  lemma {:induction false} ListReplayedAppends(list: seq<string>, fen: string, sans: seq<string>, k: nat,
                                               replay: PositionReplayer)
    requires k <= |sans|
    ensures ListReplayed(list, fen, sans, k, replay) == AppendEntries(list, AcceptedMoves(fen, sans, k, replay))
  {
    if k > 0 {
      ListReplayedAppends(list, fen, sans, k - 1, replay);
      var r := replay(fen, sans[..k]);
      if r.Some? {
        AppendStep(list, AcceptedMoves(fen, sans, k - 1, replay), r.value);
      }
    }
  }

  /** The loop's icons are those of the accepted moves' captures. */
  lemma {:induction false} CapturesReplayedRecords(c: Captures, fen: string, sans: seq<string>, k: nat,
                                                   replay: PositionReplayer)
    requires k <= |sans|
    ensures CapturesReplayed(c, fen, sans, k, replay) == RecordAll(c, AcceptedMoves(fen, sans, k, replay))
  {
    if k > 0 {
      CapturesReplayedRecords(c, fen, sans, k - 1, replay);
      var r := replay(fen, sans[..k]);
      if r.Some? {
        RecordStep(c, AcceptedMoves(fen, sans, k - 1, replay), r.value);
      }
    }
  }

  /** Loading as written appends a fresh entry for every replayed move the
      engine accepts, after the saved entries it has already restored: the
      list grows by the number of accepted moves, and doubles when every
      saved move is accepted. */
  lemma LoadAppendsReplayed(saved: SavedState, replay: PositionReplayer)
    ensures var sans := Sans(saved.moves);
      var ms := AcceptedMoves(saved.fen, sans, |saved.moves|, replay);
      var l := ListReplayed(saved.moves, saved.fen, sans, |saved.moves|, replay);
      && |l| == |saved.moves| + |ms|
      && l[..|saved.moves|] == saved.moves
      && (l == saved.moves <==> ms == [])
      && (|ms| == |saved.moves| ==> |l| == 2 * |saved.moves|)
  {
    ListReplayedAppends(saved.moves, saved.fen, Sans(saved.moves), |saved.moves|, replay);
  }

  /** An engine that accepts every SAN, as the real one does for the saved
      game below: both knights went out and came back, so the saved
      position has the pieces where they start and White to move. */
  function AcceptAll(fen: string, sans: seq<string>): Option<Move>
  {
    if sans == [] then None
    else Some(Move(if |sans| % 2 == 1 then White else Black, sans[|sans| - 1], None))
  }

  /** The saved list of the concrete case below. */
  const KnightsOutAndBack := ["1. Nc3", "Nc6", "2. Nb1", "Nb8"]

  /** The position saved with it: the pieces stand as at the start, after
      four quiet moves, with White to move on move 3. */
  const KnightsFen := "rnbqkbnr/pppppppp/8/8/8/8/PPPPPPPP/RNBQKBNR w KQkq - 4 3"

  /** The SANs the loader strips from that list. */
  lemma KnightsSans()
    ensures Sans(KnightsOutAndBack) == ["Nc3", "Nc6", "Nb1", "Nb8"]
  {
    assert DecimalString(1) == "1" && DecimalString(2) == "2";
    StripNumbered(1, "Nc3");
    StripNumbered(2, "Nb1");
    assert "1. Nc3" == DecimalString(1) + ". " + "Nc3";
    assert "2. Nb1" == DecimalString(2) + ". " + "Nb1";
    assert LeadingDigits("Nc6") == 0 && LeadingDigits("Nb8") == 0;
  }

  /** An engine accepting everything accepts all four. */
  lemma KnightsAccepted(sans: seq<string>)
    requires sans == ["Nc3", "Nc6", "Nb1", "Nb8"]
    ensures AcceptedMoves(KnightsFen, sans, 4, AcceptAll) ==
      [Move(White, "Nc3", None), Move(Black, "Nc6", None), Move(White, "Nb1", None), Move(Black, "Nb8", None)]
  {
    assert sans[..1] == ["Nc3"];
    assert sans[..2] == ["Nc3", "Nc6"];
    assert sans[..3] == ["Nc3", "Nc6", "Nb1"];
    assert sans[..4] == sans;
    var a1 := AcceptedMoves(KnightsFen, sans, 1, AcceptAll);
    assert a1 == [Move(White, "Nc3", None)];
    var a2 := AcceptedMoves(KnightsFen, sans, 2, AcceptAll);
    assert a2 == a1 + [Move(Black, "Nc6", None)];
    var a3 := AcceptedMoves(KnightsFen, sans, 3, AcceptAll);
    assert a3 == a2 + [Move(White, "Nb1", None)];
  }

  /** A concrete case: the saved list 1. Nc3 Nc6 2. Nb1 Nb8, saved with a
      position whose pieces stand as at the start, so that the engine
      loaded with it accepts all four SANs again, is restored as eight
      entries, the fifth being "3. Nc3". */
  lemma LoadDuplicatesExample()
    ensures var saved := SavedState(KnightsFen, KnightsOutAndBack, true);
      var l := ListReplayed(saved.moves, saved.fen, Sans(saved.moves), |saved.moves|, AcceptAll);
      |l| == 8 && l[4] == "3. Nc3"
  {
    ListReplayedAppends(KnightsOutAndBack, KnightsFen, Sans(KnightsOutAndBack), 4, AcceptAll);
    KnightsSans();
    var ms := AcceptedMoves(KnightsFen, Sans(KnightsOutAndBack), 4, AcceptAll);
    KnightsAccepted(Sans(KnightsOutAndBack));
    var w := Move(White, "Nc3", None);
    assert ms[..1] == [w];
    assert AppendEntries(KnightsOutAndBack, ms[..1]) == KnightsOutAndBack + [MoveNotation(4, w)] by {
      assert ms[..1][..0] == [];
    }
    NumberedEntry();
    AppendPrefix(KnightsOutAndBack, ms, 1);
    var l := AppendEntries(KnightsOutAndBack, ms);
    assert l[4] == l[..5][4];
  }

  /** The fifth entry of that list. */
  lemma NumberedEntry()
    ensures MoveNotation(4, Move(White, "Nc3", None)) == "3. Nc3"
  {
    assert MoveNumber(4) == 3 && DecimalString(3) == "3";
  }

  /** One more accepted move adds one entry. */
  lemma AppendStep(list: seq<string>, ms: seq<Move>, m: Move)
    ensures var l := AppendEntries(list, ms);
      AppendEntries(list, ms + [m]) == l + [MoveNotation(|l|, m)]
  {
    assert (ms + [m])[..|ms|] == ms;
  }

  /** One more accepted move records its capture. */
  lemma RecordStep(c: Captures, ms: seq<Move>, m: Move)
    ensures RecordAll(c, ms + [m]) == RecordCapture(RecordAll(c, ms), m)
  {
    assert (ms + [m])[..|ms|] == ms;
  }

  /** Appending a prefix of the moves gives a prefix of the result. */
  lemma {:induction false} AppendPrefix(list: seq<string>, ms: seq<Move>, j: nat)
    requires j <= |ms|
    ensures AppendEntries(list, ms)[..|list| + j] == AppendEntries(list, ms[..j])
    decreases |ms|
  {
    if j < |ms| {
      var front := ms[..|ms| - 1];
      AppendPrefix(list, front, j);
      assert front[..j] == ms[..j];
      var l := AppendEntries(list, front);
      assert AppendEntries(list, ms)[..|list| + j] == l[..|list| + j];
    } else {
      assert ms[..j] == ms;
    }
  }

  /**
   * The board's session state: the move list the page keeps, the selected
   * square, the game flags the handlers flip, and the captured-piece
   * icons shown beside the board.
   */
  class AiSession {
    var moveList: seq<string>
    var selectedSquare: Option<string>
    var isGameStarted: bool
    var isGameForfeited: bool
    var isGameDrawn: bool
    var captured: Captures

    constructor ()
      ensures moveList == [] && selectedSquare == None && captured == NoCaptures
      ensures !isGameStarted && !isGameForfeited && !isGameDrawn
    {
      moveList := [];
      selectedSquare := None;
      isGameStarted := false;
      isGameForfeited := false;
      isGameDrawn := false;
      captured := NoCaptures;
    }

    /** `addMoveToList`: append exactly one entry, the move's notation
        numbered from the current length; earlier entries stay as they were. */
    method AddMoveToList(m: Move)
      modifies this`moveList
      ensures moveList == old(moveList) + [MoveNotation(|old(moveList)|, m)]
    {
      moveList := moveList + [MoveNotation(|moveList|, m)];
    }

    /** The state part of `updateAfterMove`: the new entry and the captured
        piece's icon. */
    method UpdateAfterMove(m: Move)
      modifies this`moveList, this`captured
      ensures moveList == old(moveList) + [MoveNotation(|old(moveList)|, m)]
      ensures captured == RecordCapture(old(captured), m)
    {
      AddMoveToList(m);
      captured := RecordCapture(captured, m);
    }

    /** `onDragStart`: refused (false, nothing changes) when the board is
        locked, the piece is the computer's or not the side to move's;
        dragging the selected square again clears the selection and is
        refused; otherwise the square becomes the selection and the drag
        is allowed. */
    method OnDragStart(source: string, code: string, view: EngineView, settings: Option<string>)
      returns (allowed: bool)
      modifies this`selectedSquare
      ensures DragRefused(isGameStarted, isGameForfeited, isGameDrawn, view, PlayerColor(settings), code) ==>
        !allowed && selectedSquare == old(selectedSquare)
      ensures !DragRefused(isGameStarted, isGameForfeited, isGameDrawn, view, PlayerColor(settings), code) ==>
        && allowed == (old(selectedSquare) != Some(source))
        && selectedSquare == (if allowed then Some(source) else None)
    {
      if !isGameStarted || view.gameOver || isGameForfeited || isGameDrawn {
        return false;
      }
      var playerColor := PlayerColor(settings);
      if (playerColor == "white" && StartsWith(code, 'b')) || (playerColor == "black" && StartsWith(code, 'w')) {
        return false;
      }
      if (view.turn == White && StartsWith(code, 'b')) || (view.turn == Black && StartsWith(code, 'w')) {
        return false;
      }
      if selectedSquare == Some(source) {
        selectedSquare := None;
        return false;
      }
      selectedSquare := Some(source);
      allowed := true;
    }

    /** `onDrop`: ask the engine for the move with the promotion piece
        chosen above; an illegal move snaps back and changes nothing, a
        legal one is recorded. The selection is left as it was. */
    method OnDrop(source: string, target: string, pieceAt: Option<Piece>, answer: Option<string>,
                  engine: Engine)
      returns (result: DropResult)
      modifies this`moveList, this`captured
      ensures var move := engine(MoveRequest(source, target, Some(PromotionPiece(pieceAt, target, answer))));
        && (move.None? ==>
              result == Snapback && moveList == old(moveList) && captured == old(captured))
        && (move.Some? ==>
              && result == Placed
              && moveList == old(moveList) + [MoveNotation(|old(moveList)|, move.value)]
              && captured == RecordCapture(old(captured), move.value))
    {
      var promotion := PromotionPiece(pieceAt, target, answer);
      var move := engine(MoveRequest(source, target, Some(promotion)));
      if move.None? {
        return Snapback;
      }
      UpdateAfterMove(move.value);
      result := Placed;
    }

    /** The guards of `handleBoardClick` under which a click does nothing:
        the board is locked, no square was clicked, or the clicked square
        holds the computer's piece. */
    predicate ClickIgnored(square: Option<string>, pieceAt: Option<Piece>, view: EngineView,
                           settings: Option<string>)
      reads this
    {
      || BoardLocked(isGameStarted, isGameForfeited, isGameDrawn, view)
      || square.None? || square.value == ""
      || (PlayerColor(settings) == "white" && pieceAt.Some? && pieceAt.value.color == Black)
      || (PlayerColor(settings) == "black" && pieceAt.Some? && pieceAt.value.color == White)
    }

    /** `handleBoardClick`. `pieceAt` is the engine's `get` of the clicked
        square. With a selection, the click asks the engine to move the
        selected piece there (promoting to a queen): a legal move is
        recorded and clears the selection; an illegal one selects the
        clicked square if it holds a piece of the side to move. Without a
        selection, such a square becomes the selection. */
    method HandleBoardClick(square: Option<string>, pieceAt: Option<Piece>, view: EngineView,
                            settings: Option<string>, engine: Engine)
      modifies this`selectedSquare, this`moveList, this`captured
      ensures old(ClickIgnored(square, pieceAt, view, settings)) ==>
        selectedSquare == old(selectedSquare) && moveList == old(moveList) && captured == old(captured)
      ensures !old(ClickIgnored(square, pieceAt, view, settings)) ==>
        var own := pieceAt.Some? && pieceAt.value.color == view.turn;
        var hadSelection := old(selectedSquare).Some? && old(selectedSquare).value != "";
        var move := if hadSelection
          then engine(MoveRequest(old(selectedSquare).value, square.value, Some('q'))) else None;
        if hadSelection && move.Some? then
          && selectedSquare == None
          && moveList == old(moveList) + [MoveNotation(|old(moveList)|, move.value)]
          && captured == RecordCapture(old(captured), move.value)
        else
          && selectedSquare == (if own then Some(square.value) else old(selectedSquare))
          && moveList == old(moveList) && captured == old(captured)
    {
      if !isGameStarted || view.gameOver || isGameForfeited || isGameDrawn {
        return;
      }
      if square.None? || square.value == "" {
        return;
      }
      var sq := square.value;
      var playerColor := PlayerColor(settings);
      if (playerColor == "white" && pieceAt.Some? && pieceAt.value.color == Black)
         || (playerColor == "black" && pieceAt.Some? && pieceAt.value.color == White) {
        return;
      }
      if selectedSquare.Some? && selectedSquare.value != "" {
        var move := engine(MoveRequest(selectedSquare.value, sq, Some('q')));
        if move.None? {
          if pieceAt.Some? && pieceAt.value.color == view.turn {
            selectedSquare := Some(sq);
          }
          return;
        }
        UpdateAfterMove(move.value);
        selectedSquare := None;
      } else {
        if pieceAt.Some? && pieceAt.value.color == view.turn {
          selectedSquare := Some(sq);
        }
      }
    }

    /** `handleForfeitGame`. Nothing happens when the game is over, already
        forfeited, or the player does not confirm; otherwise one entry
        "<ceil(n/2)>. <side to move> forfeits" is appended, the game is
        marked forfeited, and the returned banner names the other side as
        the winner. */
    method HandleForfeit(view: EngineView, confirmed: bool) returns (banner: Option<string>)
      modifies this`moveList, this`isGameForfeited
      ensures view.gameOver || old(isGameForfeited) || !confirmed ==>
        banner == None && moveList == old(moveList) && isGameForfeited == old(isGameForfeited)
      ensures !(view.gameOver || old(isGameForfeited) || !confirmed) ==>
        && moveList == old(moveList) + [ForfeitEntry(|old(moveList)|, view.turn)]
        && isGameForfeited
        && banner == Some(ColorName(Opponent(view.turn)) + " wins by forfeit!")
    {
      if view.gameOver || isGameForfeited {
        return None;
      }
      if !confirmed {
        return None;
      }
      var moveColor := ColorName(view.turn);
      var opponentColor := if moveColor == "White" then "Black" else "White";
      moveList := moveList + [ForfeitEntry(|moveList|, view.turn)];
      isGameForfeited := true;
      banner := Some(opponentColor + " wins by forfeit!");
    }

    /** `handleOfferDraw`, with the computer's answer as a parameter:
        ignored when the game is over or already drawn; an accepted offer
        marks the game drawn, a declined one changes nothing. */
    method HandleOfferDraw(view: EngineView, accepted: bool)
      modifies this`isGameDrawn
      ensures isGameDrawn == (old(isGameDrawn) || (!view.gameOver && accepted))
    {
      if view.gameOver || isGameDrawn {
        return;
      }
      if accepted {
        isGameDrawn := true;
      }
    }

    /** The settings form's submit handler: sets the started flag. The move
        list and the other flags are left as they were, so a forfeited or
        drawn board stays locked. */
    method StartGame()
      modifies this`isGameStarted
      ensures isGameStarted
    {
      isGameStarted := true;
    }

    /** The "New Game" handler: empty move list and captures, no selection,
        every flag cleared. */
    method NewGame()
      modifies this
      ensures moveList == [] && selectedSquare == None && captured == NoCaptures
      ensures !isGameStarted && !isGameForfeited && !isGameDrawn
    {
      isGameForfeited := false;
      isGameDrawn := false;
      moveList := [];
      captured := NoCaptures;
      selectedSquare := None;
      isGameStarted := false;
    }

    /** The part of `checkComputerTurn` after the move service answered:
        when it is the computer's turn and the answer is a non-empty move
        string, split it and play it; a legal move is recorded, anything
        else changes nothing. */
    method ApplyComputerMove(view: EngineView, settings: Option<string>, aiMove: Option<string>,
                             engine: Engine)
      modifies this`moveList, this`captured
      ensures var applies := view.turn == ComputerColor(PlayerColor(settings))
                             && aiMove.Some? && aiMove.value != "";
        var move := if applies then engine(SplitMoveString(aiMove.value)) else None;
        if move.Some? then
          && moveList == old(moveList) + [MoveNotation(|old(moveList)|, move.value)]
          && captured == RecordCapture(old(captured), move.value)
        else
          moveList == old(moveList) && captured == old(captured)
    {
      var playerColor := PlayerColor(settings);
      var computerColor := if playerColor == "white" then "black" else "white";
      if ColorCode(view.turn) == computerColor[0] {
        if aiMove.Some? && aiMove.value != "" {
          var request := SplitMoveString(aiMove.value);
          var move := engine(request);
          if move.Some? {
            UpdateAfterMove(move.value);
          }
        }
      }
    }

    /** `saveGameState`, with the engine's FEN as a parameter. */
    method SaveGameState(fen: string) returns (saved: SavedState)
      ensures saved.fen == fen && saved.moves == moveList && saved.started == isGameStarted
    {
      saved := SavedState(fen, moveList, isGameStarted);
    }

    /** The replay loop of `loadGameState`: each SAN, after those tried
        before, is played on the engine loaded with `fen`, and every move
        the engine accepts goes through `updateAfterMove`. */
    method ReplayMoves(fen: string, sans: seq<string>, replay: PositionReplayer)
      modifies this`moveList, this`captured
      ensures moveList == ListReplayed(old(moveList), fen, sans, |sans|, replay)
      ensures captured == CapturesReplayed(old(captured), fen, sans, |sans|, replay)
    {
      ghost var l0, c0 := moveList, captured;
      var i := 0;
      while i < |sans|
        invariant 0 <= i <= |sans|
        invariant moveList == ListReplayed(l0, fen, sans, i, replay)
        invariant captured == CapturesReplayed(c0, fen, sans, i, replay)
      {
        var moveDetails := replay(fen, sans[..i + 1]);
        if moveDetails.Some? {
          UpdateAfterMove(moveDetails.value);
        }
        i := i + 1;
      }
    }

    /** `loadGameState` as written: with nothing saved nothing changes.
        Otherwise the saved entries are restored, the engine is loaded
        with the saved position, each entry with its number stripped is
        replayed on it, and every accepted move is appended to the list
        once more. The stripping does not depend on the session, so it is
        done for all entries before the replay. */
    method LoadGameState(saved: Option<SavedState>, replay: PositionReplayer)
      modifies this`moveList, this`captured, this`isGameStarted
      ensures saved.None? ==>
        moveList == old(moveList) && captured == old(captured) && isGameStarted == old(isGameStarted)
      ensures saved.Some? ==>
        var st := saved.value;
        && moveList == ListReplayed(st.moves, st.fen, Sans(st.moves), |st.moves|, replay)
        && captured == CapturesReplayed(old(captured), st.fen, Sans(st.moves), |st.moves|, replay)
        && isGameStarted == st.started
    {
      if saved.None? {
        return;
      }
      var state := saved.value;
      moveList := state.moves;
      ReplayMoves(state.fen, Sans(state.moves), replay);
      isGameStarted := state.started;
    }

    /** Saving and then loading as written: the list comes back with an
        entry appended for every saved move the engine accepts again from
        the saved position; it comes back unchanged exactly when the
        engine accepts none. Each accepted capture adds its icon once more
        on top of those shown. The started flag comes back as it was. */
    method SaveThenLoad(fen: string, replay: PositionReplayer)
      modifies this`moveList, this`captured, this`isGameStarted
      ensures var ms := AcceptedMoves(fen, Sans(old(moveList)), |old(moveList)|, replay);
        && moveList == ListReplayed(old(moveList), fen, Sans(old(moveList)), |old(moveList)|, replay)
        && |moveList| == |old(moveList)| + |ms|
        && moveList[..|old(moveList)|] == old(moveList)
        && (moveList == old(moveList) <==> ms == [])
      ensures captured == CapturesReplayed(old(captured), fen, Sans(old(moveList)), |old(moveList)|, replay)
      ensures isGameStarted == old(isGameStarted)
    {
      var saved := SaveGameState(fen);
      LoadAppendsReplayed(saved, replay);
      LoadGameState(Some(saved), replay);
    }

    /** Saving and then loading with the corrected loader gives the list
        and the started flag back as they were, and the icons are those of
        the saved moves replayed from the start position. */
    method SaveThenLoadRestoring(fen: string, replay: PositionReplayer)
      modifies this`moveList, this`captured, this`isGameStarted
      ensures moveList == old(moveList) && isGameStarted == old(isGameStarted)
      ensures captured == CapturesReplayed(NoCaptures, StartFen, Sans(old(moveList)), |old(moveList)|, replay)
    {
      var saved := SaveGameState(fen);
      LoadGameStateRestoring(Some(saved), replay);
    }

    /** The replay of the corrected loader: the SANs are played from `fen`
        and only the captured-piece icons are rebuilt. */
    method ReplayCaptures(fen: string, sans: seq<string>, replay: PositionReplayer)
      modifies this`captured
      ensures captured == CapturesReplayed(old(captured), fen, sans, |sans|, replay)
    {
      ghost var c0 := captured;
      var i := 0;
      while i < |sans|
        invariant 0 <= i <= |sans|
        invariant captured == CapturesReplayed(c0, fen, sans, i, replay)
      {
        var moveDetails := replay(fen, sans[..i + 1]);
        if moveDetails.Some? {
          captured := RecordCapture(captured, moveDetails.value);
        }
        i := i + 1;
      }
    }

    /** `loadGameState` as evidently intended: the saved entries are
        restored as they are, and the stripped SANs are replayed from the
        start position only to rebuild the engine and the captured-piece
        icons, which start from none. A saved list is restored exactly. */
    method LoadGameStateRestoring(saved: Option<SavedState>, replay: PositionReplayer)
      modifies this`moveList, this`captured, this`isGameStarted
      ensures saved.None? ==>
        moveList == old(moveList) && captured == old(captured) && isGameStarted == old(isGameStarted)
      ensures saved.Some? ==>
        var st := saved.value;
        && moveList == st.moves
        && captured == CapturesReplayed(NoCaptures, StartFen, Sans(st.moves), |st.moves|, replay)
        && isGameStarted == st.started
    {
      if saved.None? {
        return;
      }
      var state := saved.value;
      moveList := state.moves;
      captured := NoCaptures;
      ReplayCaptures(StartFen, Sans(state.moves), replay);
      isGameStarted := state.started;
    }
  }
}
