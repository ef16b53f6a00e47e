/**
 * The local two-player board: both sides move on the same board, every
 * legal drop is recorded in the move list, and the status line reports
 * checkmate, a drawn position or the side to move.
 */
module PlayVs {
  import opened ChessTypes
  import opened Notation

  /** `onDragStart`: false refuses the drag; any other answer allows it. */
  function DragAllowed(view: EngineView, code: string): bool
  {
    if view.gameOver then false
    else if (view.turn == White && StartsWith(code, 'b')) || (view.turn == Black && StartsWith(code, 'w')) then false
    else true
  }

  /** A piece may be picked up exactly while the game is on and its code
      names the side to move or no colour at all. */
  lemma DragAllowedOwner(view: EngineView, code: string)
    ensures DragAllowed(view, code) <==>
      !view.gameOver && (PieceOwner(code).None? || PieceOwner(code) == Some(view.turn))
  {
    if StartsWith(code, 'w') {
      assert PieceOwner(code) == Some(White);
    }
  }

  /** `updateStatus`: checkmate first, then a drawn position, then the side
      to move, with the check notice only in that last case. */
  function Status(view: EngineView): string
  {
    var moveColor := if view.turn == Black then "Black" else "White";
    if view.inCheckmate then "Game over, " + moveColor + " is in checkmate."
    else if view.inDraw then "Game over, drawn position"
    else moveColor + " to move" + (if view.inCheck then ", " + moveColor + " is in check" else "")
  }

  /** Each status text belongs to exactly one case: mate names the side to
      move as mated, a draw is reported only without mate, and the running
      game's line starts "<side> to move" and carries the check notice
      exactly when the side to move is in check. */
  lemma StatusPrecedence(view: EngineView)
    ensures var s := Status(view);
      && (s == "Game over, " + ColorName(view.turn) + " is in checkmate." <==> view.inCheckmate)
      && (s == "Game over, drawn position" <==> !view.inCheckmate && view.inDraw)
      && (!view.inCheckmate && !view.inDraw ==> ColorName(view.turn) + " to move" <= s)
      && (EndsWith(s, ", " + ColorName(view.turn) + " is in check") <==>
            !view.inCheckmate && !view.inDraw && view.inCheck)
  {
    var s := Status(view);
    var name := ColorName(view.turn);
    var mate := "Game over, " + name + " is in checkmate.";
    var notice := ", " + name + " is in check";
    assert |mate| == 33 && |notice| == 19;
    assert mate[|mate| - 1] == '.' && notice[|notice| - 1] == 'k';
    if view.inCheckmate {
      assert s == mate;
    } else if view.inDraw {
      assert s[|s| - 1] == 'n';
      assert s[0] == 'G' && mate[11] != s[11];
    } else if view.inCheck {
      assert s == name + " to move" + notice;
      assert s[0] != 'G';
    } else {
      assert s == name + " to move";
      assert s[0] != 'G';
    }
  }

  /** The board's move list. */
  class LocalSession {
    var moveList: seq<string>

    constructor ()
      ensures moveList == []
    {
      moveList := [];
    }

    /** `addMoveToList`: append exactly one entry, numbered from the current
        length; earlier entries stay as they were. */
    method AddMoveToList(m: Move)
      modifies this
      ensures moveList == old(moveList) + [MoveNotation(|old(moveList)|, m)]
    {
      moveList := moveList + [MoveNotation(|moveList|, m)];
    }

    /** `onDrop`: every drop asks the engine to promote to a queen; an
        illegal move snaps back and leaves the list alone, a legal one
        appends its entry. */
    method OnDrop(source: string, target: string, engine: Engine) returns (result: DropResult)
      modifies this
      ensures var move := engine(MoveRequest(source, target, Some('q')));
        && (result == Snapback <==> move.None?)
        && (move.None? ==> moveList == old(moveList))
        && (move.Some? ==> moveList == old(moveList) + [MoveNotation(|old(moveList)|, move.value)])
    {
      var move := engine(MoveRequest(source, target, Some('q')));
      if move.None? {
        return Snapback;
      }
      AddMoveToList(move.value);
      result := Placed;
    }
  }

  /** A session driven by a sequence of legal drops holds the list
      `BuildList` describes. */
  lemma {:induction false} DropsBuildList(ms: seq<Move>, lists: seq<seq<string>>)
    requires |lists| == |ms| + 1 && lists[0] == []
    requires forall i :: 0 <= i < |ms| ==> lists[i + 1] == lists[i] + [MoveNotation(|lists[i]|, ms[i])]
    ensures lists[|ms|] == BuildList(ms)
  {
    if ms != [] {
      var n := |ms| - 1;
      DropsBuildList(ms[..n], lists[..n + 1]);
      assert lists[n] == BuildList(ms[..n]);
      assert |lists[n]| == n;
    }
  }

  /** `updateMoveListDisplay`: one list item per entry, in list order. */
  method ListItems(moveList: seq<string>) returns (items: seq<string>)
    ensures |items| == |moveList|
    ensures forall i :: 0 <= i < |items| ==> items[i] == moveList[i]
  {
    items := [];
    var index := 0;
    while index < |moveList|
      invariant 0 <= index <= |moveList|
      invariant items == moveList[..index]
    {
      items := items + [moveList[index]];
      index := index + 1;
    }
  }
}
