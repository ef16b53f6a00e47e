/**
 * The analysis board: a loaded game's SAN history, a cursor on it
 * (`currentMoveIndex`, -1 meaning the start position), the captured-piece
 * icons of the replayed prefix, the two-column move table with its
 * `data-index` attributes, the current-move highlight and the status line.
 *
 * Navigation resets the engine and replays the history up to the cursor.
 * The engine is an oracle here: `replay(p)` is what `move(san)` returns
 * for the last SAN of `p` after the earlier ones of `p` were played from
 * the start position.
 */
module AnalyseGame {
  import opened ChessTypes
  import opened Notation
  import opened KingScan

  /** The engine replaying a history: the result of the last move of a prefix. */
  type Replayer = seq<string> -> Option<Move>

  /** One replayed move's effect on the icons: a rejected move (null) or a
      move that takes nothing leaves them as they are. */
  function RecordReplayed(c: Captures, result: Option<Move>): (r: Captures)
    ensures result.None? || result.value.captured.None? ==> r == c
    ensures |r.white| + |r.black| ==
      |c.white| + |c.black| + (if IsCapture(result) then 1 else 0)
  {
    if result.Some? then RecordCapture(c, result.value) else c
  }

  /** The replayed move took a piece. */
  predicate IsCapture(result: Option<Move>)
  {
    result.Some? && result.value.captured.Some?
  }

  /** The icons after replaying the first `k` moves from the start. */
  function CapturesAfter(moves: seq<string>, k: nat, replay: Replayer): Captures
    requires k <= |moves|
  {
    if k == 0 then NoCaptures
    else RecordReplayed(CapturesAfter(moves, k - 1, replay), replay(moves[..k]))
  }

  /** The first i + 1 moves are the first i and move i. */
  lemma PrefixStep(moves: seq<string>, i: nat)
    requires i < |moves|
    ensures moves[..i] + [moves[i]] == moves[..i + 1]
  {
  }

  /** The positions among the first `k` moves whose replay captured a piece. */
  function CapturingMoves(moves: seq<string>, k: nat, replay: Replayer): set<nat>
    requires k <= |moves|
  {
    set i: nat | i < k && CapturedAt(moves, i, replay)
  }

  /** Move i of the history captured a piece when replayed. */
  predicate CapturedAt(moves: seq<string>, i: nat, replay: Replayer)
  {
    i < |moves| && IsCapture(replay(moves[..i + 1]))
  }

  /** Capture accounting: the two icon lists together hold one icon per
      capturing move of the replayed prefix. */
  lemma {:induction false} CaptureAccounting(moves: seq<string>, k: nat, replay: Replayer)
    requires k <= |moves|
    ensures var c := CapturesAfter(moves, k, replay);
      |c.white| + |c.black| == |CapturingMoves(moves, k, replay)|
  {
    if k > 0 {
      CaptureAccounting(moves, k - 1, replay);
      CapturingStep(moves, k, replay);
    }
  }

  /** Move k - 1 joins the capturing moves exactly when its replay took a
      piece; the earlier ones stay. */
  lemma CapturingStep(moves: seq<string>, k: nat, replay: Replayer)
    requires 0 < k <= |moves|
    ensures var before := CapturingMoves(moves, k - 1, replay);
      && k - 1 !in before
      && CapturingMoves(moves, k, replay) ==
           if IsCapture(replay(moves[..k])) then before + {k - 1} else before
  {
    var before := CapturingMoves(moves, k - 1, replay);
    var after := CapturingMoves(moves, k, replay);
    if IsCapture(replay(moves[..k])) {
      assert CapturedAt(moves, k - 1, replay);
      assert after == before + {k - 1};
    } else {
      assert !CapturedAt(moves, k - 1, replay);
      assert after == before;
    }
  }

  /** Every icon of `icons` is two characters starting with `code`. */
  predicate IconsOf(icons: seq<string>, code: char)
  {
    forall i :: 0 <= i < |icons| ==> |icons[i]| == 2 && icons[i][0] == code
  }

  /** Every icon names a piece of the list's colour: the black list
      (pieces White took) holds "b?" icons and the white list "w?" icons. */
  lemma {:induction false} CaptureIconColors(moves: seq<string>, k: nat, replay: Replayer)
    requires k <= |moves|
    ensures IconsOf(CapturesAfter(moves, k, replay).black, 'b')
    ensures IconsOf(CapturesAfter(moves, k, replay).white, 'w')
  {
    if k > 0 {
      CaptureIconColors(moves, k - 1, replay);
      var before := CapturesAfter(moves, k - 1, replay);
      var after := CapturesAfter(moves, k, replay);
      var result := replay(moves[..k]);
      if IsCapture(result) {
        var m := result.value;
        if m.color == White {
          IconsAppend(before.black, ['b', ToUpper(m.captured.value)], 'b');
        } else {
          IconsAppend(before.white, ['w', ToUpper(m.captured.value)], 'w');
        }
      }
    }
  }

  /** Appending an icon of the right colour keeps the list's colour. */
  lemma IconsAppend(icons: seq<string>, icon: string, code: char)
    requires IconsOf(icons, code) && |icon| == 2 && icon[0] == code
    ensures IconsOf(icons + [icon], code)
  {
    forall i | 0 <= i < |icons| + 1
      ensures |(icons + [icon])[i]| == 2 && (icons + [icon])[i][0] == code
    {
      if i < |icons| {
        assert (icons + [icon])[i] == icons[i];
      }
    }
  }

  /** One pair of the move table: White's SAN and Black's, null when the
      game ends on a White move. */
  datatype MovePair = MovePair(white: string, black: Option<string>)

  /** `pairs` groups `moves` two by two: ceil(n/2) pairs, pair k holding
      moves 2k and 2k + 1 (none when 2k + 1 = n). */
  predicate IsPairing(pairs: seq<MovePair>, moves: seq<string>)
  {
    && |pairs| == (|moves| + 1) / 2
    && forall k :: 0 <= k < |pairs| ==>
         && pairs[k].white == moves[2 * k]
         && pairs[k].black == (if 2 * k + 1 < |moves| then Some(moves[2 * k + 1]) else None)
  }

  /** The moves of one pair, in order. */
  function PairEntries(p: MovePair): seq<string>
  {
    [p.white] + (if p.black.Some? then [p.black.value] else [])
  }

  /** The moves of the pairs read back in order. */
  function Flatten(pairs: seq<MovePair>): seq<string>
  {
    if pairs == [] then [] else Flatten(pairs[..|pairs| - 1]) + PairEntries(pairs[|pairs| - 1])
  }

  /** Reading the pairs back in order gives the history again. */
  lemma {:induction false} PairingFlattens(pairs: seq<MovePair>, moves: seq<string>)
    requires IsPairing(pairs, moves)
    ensures Flatten(pairs) == moves
  {
    if pairs != [] {
      var m := |pairs|;
      PairingFront(pairs, moves);
      PairingFlattens(pairs[..m - 1], moves[..2 * (m - 1)]);
      PairingLast(pairs, moves);
    }
  }

  /** Dropping the last pair pairs the moves before it. */
  lemma PairingFront(pairs: seq<MovePair>, moves: seq<string>)
    requires IsPairing(pairs, moves) && pairs != []
    ensures 2 * (|pairs| - 1) <= |moves|
    ensures IsPairing(pairs[..|pairs| - 1], moves[..2 * (|pairs| - 1)])
  {
    var m := |pairs|;
    var front := moves[..2 * (m - 1)];
    forall k | 0 <= k < m - 1
      ensures pairs[..m - 1][k].white == front[2 * k]
      ensures pairs[..m - 1][k].black == Some(front[2 * k + 1])
    {
      assert pairs[..m - 1][k] == pairs[k];
    }
  }

  /** The last pair holds the last one or two moves. */
  lemma PairingLast(pairs: seq<MovePair>, moves: seq<string>)
    requires IsPairing(pairs, moves) && pairs != []
    ensures 2 * (|pairs| - 1) <= |moves|
    ensures moves == moves[..2 * (|pairs| - 1)] + PairEntries(pairs[|pairs| - 1])
  {
    var m := |pairs|;
    var last := pairs[m - 1];
    assert 2 * m - 1 <= |moves| <= 2 * m;
    if |moves| == 2 * m {
      assert moves == moves[..2 * (m - 1)] + [last.white, last.black.value];
    } else {
      assert moves == moves[..2 * (m - 1)] + [last.white];
    }
  }

  /** The pairing loop of `updateMoveList`: walk the history two moves at
      a time. */
  method PairMoves(moves: seq<string>) returns (pairs: seq<MovePair>)
    ensures IsPairing(pairs, moves)
    ensures Flatten(pairs) == moves
  {
    pairs := [];
    var i := 0;
    while i < |moves|
      invariant i == 2 * |pairs| && i <= |moves| + 1
      invariant forall k :: 0 <= k < |pairs| ==>
        && pairs[k].white == moves[2 * k]
        && pairs[k].black == (if 2 * k + 1 < |moves| then Some(moves[2 * k + 1]) else None)
    {
      pairs := pairs + [MovePair(moves[i], if i + 1 < |moves| then Some(moves[i + 1]) else None)];
      i := i + 2;
    }
    PairingFlattens(pairs, moves);
  }

  /** A `.move-item` element: its `data-index` attribute and its text. */
  datatype MoveItem = MoveItem(dataIndex: string, text: string)

  /** A table row: the White cell and the Black cell, each holding an item
      or nothing. */
  datatype TableRow = TableRow(white: Option<MoveItem>, black: Option<MoveItem>)

  /** A cell gets an item only when its move text is truthy, that is present
      and non-empty; the item's `data-index` is the move's index written in
      decimal. */
  function Cell(text: Option<string>, index: nat): (item: Option<MoveItem>)
    ensures item.Some? <==> text.Some? && text.value != ""
    ensures item.Some? ==> item.value == MoveItem(DecimalString(index), text.value)
  {
    if text.Some? && text.value != "" then Some(MoveItem(DecimalString(index), text.value)) else None
  }

  /** The rows `updateMoveList` appends for the pairs: row k's items carry
      the indices 2k and 2k + 1. */
  function Table(pairs: seq<MovePair>): (rows: seq<TableRow>)
    ensures |rows| == |pairs|
    ensures forall k :: 0 <= k < |pairs| ==>
      rows[k] == TableRow(Cell(Some(pairs[k].white), 2 * k), Cell(pairs[k].black, 2 * k + 1))
  {
    seq(|pairs|, k requires 0 <= k < |pairs| =>
      TableRow(Cell(Some(pairs[k].white), 2 * k), Cell(pairs[k].black, 2 * k + 1)))
  }

  /** `querySelector('.move-item[data-index="key"]')`: the first item with
      that attribute in document order, row by row, White cell first. */
  function ItemWithIndex(rows: seq<TableRow>, key: string): Option<MoveItem>
  {
    if rows == [] then None
    else if rows[0].white.Some? && rows[0].white.value.dataIndex == key then rows[0].white
    else if rows[0].black.Some? && rows[0].black.value.dataIndex == key then rows[0].black
    else ItemWithIndex(rows[1..], key)
  }

  /** Different indices are written differently. */
  lemma DecimalInjective(a: nat, b: nat)
    requires DecimalString(a) == DecimalString(b)
    ensures a == b
  {
    DecimalRoundTrip(a);
    DecimalRoundTrip(b);
  }

  /** Row j's items carry the indices 2j and 2j + 1 and no other. */
  lemma RowIndices(pairs: seq<MovePair>, j: nat, d: nat)
    requires j < |pairs|
    ensures var row := Table(pairs)[j];
      && (row.white.Some? && row.white.value.dataIndex == DecimalString(d) ==> d == 2 * j)
      && (row.black.Some? && row.black.value.dataIndex == DecimalString(d) ==> d == 2 * j + 1)
  {
    var row := Table(pairs)[j];
    if row.white.Some? && row.white.value.dataIndex == DecimalString(d) {
      DecimalInjective(2 * j, d);
    }
    if row.black.Some? && row.black.value.dataIndex == DecimalString(d) {
      DecimalInjective(2 * j + 1, d);
    }
  }

  /** Row `row` has an item whose `data-index` is `key`. */
  predicate HasIndex(row: TableRow, key: string)
  {
    (row.white.Some? && row.white.value.dataIndex == key)
    || (row.black.Some? && row.black.value.dataIndex == key)
  }

  /** No two rows of the table carry the same `data-index`. */
  lemma DataIndexUnique(pairs: seq<MovePair>, j: nat, j': nat, d: nat)
    requires j < |pairs| && j' < |pairs|
    requires HasIndex(Table(pairs)[j], DecimalString(d)) && HasIndex(Table(pairs)[j'], DecimalString(d))
    ensures j == j'
  {
    RowIndices(pairs, j, d);
    RowIndices(pairs, j', d);
  }

  /** A row without an item for `key` is passed over by the search. */
  lemma SkipRow(pairs: seq<MovePair>, j: nat, key: string)
    requires j < |pairs|
    requires var row := Table(pairs)[j];
      && !(row.white.Some? && row.white.value.dataIndex == key)
      && !(row.black.Some? && row.black.value.dataIndex == key)
    ensures ItemWithIndex(Table(pairs)[j..], key) == ItemWithIndex(Table(pairs)[j + 1..], key)
  {
    var rows := Table(pairs)[j..];
    assert rows[0] == Table(pairs)[j];
    assert rows[1..] == Table(pairs)[j + 1..];
  }

  /** Searching the rows from row j on for the index d of a move at or after
      row j finds that move's item, or nothing when its text is empty. */
  lemma {:induction false} ItemSearchFrom(pairs: seq<MovePair>, moves: seq<string>, j: nat, d: nat)
    requires IsPairing(pairs, moves)
    requires j <= |pairs| && 2 * j <= d < |moves|
    ensures ItemWithIndex(Table(pairs)[j..], DecimalString(d)) ==
      if moves[d] != "" then Some(MoveItem(DecimalString(d), moves[d])) else None
    decreases |pairs| - j
  {
    assert j < |pairs|;
    var rows := Table(pairs)[j..];
    assert rows[0] == Table(pairs)[j];
    RowIndices(pairs, j, d);
    if d == 2 * j {
      assert pairs[j].white == moves[d];
      if moves[d] == "" {
        SkipRow(pairs, j, DecimalString(d));
        ItemAbsent(pairs, j + 1, d);
      }
    } else if d == 2 * j + 1 {
      assert pairs[j].black == Some(moves[d]);
      if moves[d] == "" {
        SkipRow(pairs, j, DecimalString(d));
        ItemAbsent(pairs, j + 1, d);
      }
    } else {
      SkipRow(pairs, j, DecimalString(d));
      ItemSearchFrom(pairs, moves, j + 1, d);
    }
  }

  /** Rows after the one holding index d have no item for d. */
  lemma {:induction false} ItemAbsent(pairs: seq<MovePair>, j: nat, d: nat)
    requires j <= |pairs| && d < 2 * j
    ensures ItemWithIndex(Table(pairs)[j..], DecimalString(d)) == None
    decreases |pairs| - j
  {
    if j < |pairs| {
      RowIndices(pairs, j, d);
      SkipRow(pairs, j, DecimalString(d));
      ItemAbsent(pairs, j + 1, d);
    } else {
      assert Table(pairs)[j..] == [];
    }
  }

  /** `highlightCurrentMove` (and `scrollToCurrentMove`, which has the same
      guard): the item marked, if any. Only a cursor inside the history
      selects anything. */
  function HighlightedItem(rows: seq<TableRow>, moves: seq<string>, currentMoveIndex: int): Option<MoveItem>
  {
    if 0 <= currentMoveIndex < |moves| then ItemWithIndex(rows, DecimalString(currentMoveIndex)) else None
  }

  /** On the table laid out for the history, the highlighted item is the
      current move's own item: there is one exactly when the cursor is
      inside the history and the move's text is non-empty. */
  lemma HighlightFindsCurrentMove(pairs: seq<MovePair>, moves: seq<string>, currentMoveIndex: int)
    requires IsPairing(pairs, moves)
    ensures var item := HighlightedItem(Table(pairs), moves, currentMoveIndex);
      && (item.Some? <==> 0 <= currentMoveIndex < |moves| && moves[currentMoveIndex] != "")
      && (item.Some? ==> item.value == MoveItem(DecimalString(currentMoveIndex), moves[currentMoveIndex]))
  {
    if 0 <= currentMoveIndex < |moves| {
      ItemSearchFrom(pairs, moves, 0, currentMoveIndex);
      assert Table(pairs)[0..] == Table(pairs);
    }
  }

  /** `parseInt` of an item's `data-index`, the target `handleMoveClick`
      navigates to. */
  function ClickTarget(item: MoveItem): int
  {
    DigitsValue(item.dataIndex)
  }

  /** Clicking the item the table shows for move d navigates to move d. */
  lemma ClickLandsOnMove(pairs: seq<MovePair>, moves: seq<string>, d: nat)
    requires IsPairing(pairs, moves) && d < |moves|
    ensures var item := ItemWithIndex(Table(pairs), DecimalString(d));
      item.Some? ==> ClickTarget(item.value) == d
  {
    ItemSearchFrom(pairs, moves, 0, d);
    assert Table(pairs)[0..] == Table(pairs);
    DecimalRoundTrip(d);
  }

  /** The status line of `updateGameStatus`: checkmate (the side not to move
      wins), then stalemate, then draw, then check, then the side to move. */
  function AnalysisStatus(view: EngineView): string
  {
    if view.inCheckmate then "Checkmate! " + (if view.turn == White then "Black" else "White") + " wins."
    else if view.inStalemate then "Stalemate!"
    else if view.inDraw then "Draw!"
    else if view.inCheck then "Check!"
    else (if view.turn == White then "White" else "Black") + " to move"
  }

  /** Each status text belongs to exactly one case of the precedence. */
  lemma AnalysisStatusPrecedence(view: EngineView)
    ensures var s := AnalysisStatus(view);
      && (s == "Checkmate! " + ColorName(Opponent(view.turn)) + " wins." <==> view.inCheckmate)
      && (s == "Stalemate!" <==> !view.inCheckmate && view.inStalemate)
      && (s == "Draw!" <==> !view.inCheckmate && !view.inStalemate && view.inDraw)
      && (s == "Check!" <==> !view.inCheckmate && !view.inStalemate && !view.inDraw && view.inCheck)
      && (s == ColorName(view.turn) + " to move" <==>
            !view.inCheckmate && !view.inStalemate && !view.inDraw && !view.inCheck)
  {
    var s := AnalysisStatus(view);
    var mate := "Checkmate! " + ColorName(Opponent(view.turn)) + " wins.";
    var toMove := ColorName(view.turn) + " to move";
    assert |mate| == 22 && |toMove| == 13;
    if view.inCheckmate {
      assert s == mate;
    } else if !view.inStalemate && !view.inDraw && !view.inCheck {
      assert s == toMove;
    }
  }

  /** The analysis board calls the check highlight from the checkmate, check
      and side-to-move branches, but not from the stalemate and draw ones. */
  predicate HighlightCalled(view: EngineView)
  {
    view.inCheckmate || (!view.inStalemate && !view.inDraw)
  }

  /** `updateGameStatus` on the analysis board: the status text and the
      king-square mark. A king is marked only for mate, or for check when
      neither stalemate nor draw is reported, and only if the king is found;
      the mark is "checkmate" exactly for mate. */
  method UpdateGameStatus(view: EngineView, board: Board) returns (text: string, mark: Option<KingMark>)
    requires IsGrid(board)
    ensures text == AnalysisStatus(view)
    ensures mark.Some? <==>
      (view.inCheckmate || (!view.inStalemate && !view.inDraw && view.inCheck)) && HasKing(board, view.turn)
    ensures mark.Some? ==>
      && IsSquareName(mark.value.square)
      && IsKing(PieceOn(board, mark.value.square), view.turn)
      && mark.value.cls == (if view.inCheckmate then "checkmate" else "check")
  {
    text := AnalysisStatus(view);
    mark := None;
    if HighlightCalled(view) {
      mark := CheckHighlight(view, board);
    }
  }

  /**
   * The analysis page's state: the loaded history, the cursor, the icons
   * of the pieces captured up to the cursor, and the SANs the engine has
   * been given since its last reset (its position is that of this prefix).
   */
  class Replay {
    var moves: seq<string>
    var currentMoveIndex: int
    var captured: Captures
    var applied: seq<string>

    /** The cursor is the start position (-1) or a move of the history. */
    predicate Valid()
      reads this
    {
      -1 <= currentMoveIndex < |moves|
    }

    /** The page as it loads: no game, cursor at the start. */
    constructor ()
      ensures moves == [] && currentMoveIndex == -1 && captured == NoCaptures && applied == []
      ensures Valid()
    {
      moves := [];
      currentMoveIndex := -1;
      captured := NoCaptures;
      applied := [];
    }

    /** `navigateToMove`: a target outside -1 .. |moves| - 1 changes
        nothing. Otherwise the engine is reset and exactly the first
        target + 1 moves are replayed, so the icons and the position depend
        only on the history and the target, and the cursor lands on the
        target. */
    method NavigateToMove(target: int, replay: Replayer)
      modifies this`currentMoveIndex, this`captured, this`applied
      ensures target < -1 || target >= |moves| ==>
        currentMoveIndex == old(currentMoveIndex) && captured == old(captured) && applied == old(applied)
      ensures -1 <= target < |moves| ==>
        && currentMoveIndex == target
        && applied == moves[..target + 1]
        && captured == CapturesAfter(moves, target + 1, replay)
      ensures target == -1 ==> captured == NoCaptures && applied == []
      ensures old(Valid()) ==> Valid()
    {
      if target < -1 || target >= |moves| {
        return;
      }
      applied := [];
      captured := NoCaptures;
      var i := 0;
      while i <= target && i < |moves|
        invariant 0 <= i <= target + 1
        invariant applied == moves[..i]
        invariant captured == CapturesAfter(moves, i, replay)
      {
        PrefixStep(moves, i);
        applied := applied + [moves[i]];
        var result := replay(applied);
        captured := RecordReplayed(captured, result);
        i := i + 1;
      }
      currentMoveIndex := target;
    }

    /** The "next" button: one move forward, or nothing at the last move. */
    method Next(replay: Replayer)
      requires Valid()
      modifies this`currentMoveIndex, this`captured, this`applied
      ensures Valid()
      ensures old(currentMoveIndex) + 1 < |moves| ==>
        && currentMoveIndex == old(currentMoveIndex) + 1
        && captured == CapturesAfter(moves, currentMoveIndex + 1, replay)
        && applied == moves[..currentMoveIndex + 1]
      ensures old(currentMoveIndex) + 1 == |moves| ==>
        currentMoveIndex == old(currentMoveIndex) && captured == old(captured) && applied == old(applied)
    {
      NavigateToMove(currentMoveIndex + 1, replay);
    }

    /** The "previous" button: one move back, or nothing at the start. */
    method Prev(replay: Replayer)
      requires Valid()
      modifies this`currentMoveIndex, this`captured, this`applied
      ensures Valid()
      ensures old(currentMoveIndex) >= 0 ==>
        && currentMoveIndex == old(currentMoveIndex) - 1
        && captured == CapturesAfter(moves, currentMoveIndex + 1, replay)
        && applied == moves[..currentMoveIndex + 1]
      ensures old(currentMoveIndex) == -1 ==>
        currentMoveIndex == -1 && captured == old(captured) && applied == old(applied)
    {
      NavigateToMove(currentMoveIndex - 1, replay);
    }

    /** `handleMoveClick`: a click outside any item does nothing; a click on
        an item navigates to the index its `data-index` holds. */
    method HandleMoveClick(item: Option<MoveItem>, replay: Replayer)
      modifies this`currentMoveIndex, this`captured, this`applied
      ensures item.None? ==>
        currentMoveIndex == old(currentMoveIndex) && captured == old(captured) && applied == old(applied)
      ensures item.Some? && 0 <= ClickTarget(item.value) < |moves| ==>
        && currentMoveIndex == ClickTarget(item.value)
        && captured == CapturesAfter(moves, currentMoveIndex + 1, replay)
        && applied == moves[..currentMoveIndex + 1]
      ensures item.Some? && ClickTarget(item.value) >= |moves| ==>
        currentMoveIndex == old(currentMoveIndex) && captured == old(captured) && applied == old(applied)
      ensures old(Valid()) ==> Valid()
    {
      if item.Some? {
        NavigateToMove(ClickTarget(item.value), replay);
      }
    }

    /** The upload handler once the file is read: `history` is the engine's
        `history()` after `load_pgn` succeeded, None when it failed. A
        failure raises the alert and changes nothing; a success installs the
        history and navigates to the start. */
    method LoadGame(history: Option<seq<string>>, replay: Replayer) returns (alerted: bool)
      modifies this
      ensures alerted <==> history.None?
      ensures history.None? ==>
        && moves == old(moves) && currentMoveIndex == old(currentMoveIndex)
        && captured == old(captured) && applied == old(applied)
      ensures history.Some? ==>
        moves == history.value && currentMoveIndex == -1 && captured == NoCaptures && applied == []
      ensures history.Some? ==> Valid()
    {
      if history.None? {
        return true;
      }
      moves := history.value;
      NavigateToMove(-1, replay);
      return false;
    }
  }
}
