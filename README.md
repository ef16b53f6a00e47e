# chess-friend boards, modelled in Dafny

chess-friend is a browser chess front end with three boards:

- **Local two-player board** (`static/js/play_vs.js`). Both sides move on one board. Every legal drop is recorded in the move list. A status line reports mate, a draw or the side to move.
- **Board against the computer** (`static/js/play_vs_ai.js`). It has these parts:
  - drag and click guards, and promotion choice on drop;
  - the move list and its three-column row layout;
  - the captured-piece icons and the check/mate highlight of the king;
  - the status line, and the forfeit and draw-offer handlers;
  - applying the move string the move service returns;
  - saving the session and loading it back.
- **Analysis board** (`static/js/analyse_game.js`). It loads a game's history and moves a cursor through it. It does so by resetting the engine and replaying a prefix of the history. It shows the history as a two-column table, highlights the current move, and rebuilds the captured-piece icons.

The chess rules engine, the board widget and the DOM are not modelled. The engine appears only as a function value:

- `Engine`: a move request yields a move or no move.
- `Replayer` / `PositionReplayer`: the engine's answer for the last SAN of a replayed prefix.
- `EngineView`: the engine's status flags (`turn`, `in_check`, `in_checkmate`, `in_stalemate`, `in_draw`, `game_over`). These are free inputs.

The same holds for the rest of the surroundings. The saved settings, the prompt's answer, the player's confirmation and the computer's draw decision are parameters. So is the move service's answer.

Files:

| File | Module | Contents |
|---|---|---|
| `chess_types.dfy` | `ChessTypes` | colours, pieces, moves, engine views, captured-piece icons |
| `notation.dfy` | `Notation` | move-list entries `"<n>. <SAN>"` and the `^\d+\.\s*` stripping; decimal numbers |
| `king_scan.dfy` | `KingScan` | the king search and check/mate mark. It is the same code in both play-vs-AI and analysis files. |
| `play_vs.dfy` | `PlayVs` | the local board; its session is the class `LocalSession` |
| `play_vs_ai.dfy` | `PlayVsAi` | the board against the computer; its page state is the class `AiSession` |
| `analyse_game.dfy` | `AnalyseGame` | the analysis board; its page state is the class `Replay` |

Each page keeps its state in module-level variables that its handlers update in place. Each such page is a class here, and each handler that updates state is a method that says exactly what it changes. The pure parts are functions with lemmas about them:

- numbering and stripping of entries;
- row layout;
- status precedence;
- the move-string split;
- the table search.

These loops of the source are methods with loops, each proved against a function that specifies it:

- the king scan;
- the pairing loop of `updateMoveList`;
- the row layout of `updateMoveListDisplay`;
- the replay loops of `navigateToMove` and `loadGameState`;
- the list items of the local board.

Two loops are functions instead, because they only compute a value. The row building of `updateMoveList` is the function `Table` over the pairs, and the per-entry strip of `loadGameState` is the function `Sans`.

## Model

| member | source | states |
|---|---|---|
| ChessTypes.RecordCapture | static/js/play_vs_ai.js:270-286 | A move that takes nothing changes nothing. A White capture adds the icon "b"+upper-case letter to the black list only. A Black capture adds "w"+letter to the white list only. |
| Notation.StripNumberShape | static/js/play_vs_ai.js:212 | About `StripNumber`, the `^\d+\.\s*` removal. The result is a suffix. It is shorter exactly when the pattern matches. The removed part is one or more digits, one dot and white space. The rest does not start with white space. |
| Notation.NotationRoundTrip | static/js/play_vs_ai.js:263-268 | About `MoveNotation`, the entry `addMoveToList` stores (also static/js/play_vs.js:35-47). Stripping that entry gives back the SAN. A White entry carries the number ceil(n/2)+1; a Black entry carries no number. |
| Notation.BuildList | static/js/play_vs.js:35-47 | The list built from moves played in order has one entry per move. Entry i is the notation numbered from i. |
| KingScan.SquareNameRoundTrip | static/js/play_vs_ai.js:309 | About `SquareName`. The name of cell (i, j) is a square a1..h8. Reading that square back gives the same cell. |
| KingScan.SquareNameInjective | static/js/play_vs_ai.js:309 | Distinct cells get distinct names. |
| KingScan.FindKing | static/js/play_vs_ai.js:300-314 | It returns None exactly when the colour has no king. Otherwise it returns the name of the first such king in row-major order, and that square holds the king. |
| KingScan.CheckHighlight | static/js/play_vs_ai.js:292-327 | A mark appears exactly when the side to move is in check or mate and its king is found. The mark is on the king's square: "checkmate" for mate, otherwise "check". |
| PlayVs.DragAllowedOwner | static/js/play_vs.js:5-12 | About `DragAllowed`, the model of `onDragStart`. A drag is allowed exactly when the game is not over and the piece code names the side to move or no colour. |
| PlayVs.StatusPrecedence | static/js/play_vs.js:67-96 | About `Status`, the model of `updateStatus`. Mate text exactly on mate. Draw text exactly on a draw without mate. Otherwise "<side> to move". The check notice appears exactly when running and in check. |
| PlayVs.LocalSession.constructor | static/js/play_vs.js:1-3 | The move list starts empty. |
| PlayVs.LocalSession.AddMoveToList | static/js/play_vs.js:35-47 | Exactly one entry is appended, numbered from the current length. |
| PlayVs.LocalSession.OnDrop | static/js/play_vs.js:14-33 | The request always asks for a queen. A snapback happens exactly when the engine rejects the move, and then the list is unchanged. Otherwise the move's entry is appended. |
| PlayVs.DropsBuildList | static/js/play_vs.js:35-47 | A session driven by legal drops holds `BuildList` of those moves. |
| PlayVs.ListItems | static/js/play_vs.js:49-61 | There is one list item per entry, in order. |
| PlayVsAi.DragGuardOwnership | static/js/play_vs_ai.js:10-30 | A piece past the guards belongs to the side to move. When a colour is chosen, it also belongs to the player. The game is started and not finished. |
| PlayVsAi.PromotionPiece | static/js/play_vs_ai.js:69-86 | The piece is always one of q, r, b, n. It is the player's answer only for a promotion with a valid answer, where `IsPromotion` is a pawn moving to rank 8 or 1; in every other case it is a queen. |
| PlayVsAi.SplitMoveString | static/js/play_vs_ai.js:682-684 | The squares are characters 0-1 and 2-3. There is a promotion exactly when the string is longer than 4, and then it is character 4. |
| PlayVsAi.SplitThenJoin | static/js/play_vs_ai.js:682-684 | Splitting a 4- or 5-character move string and writing it back gives the string. |
| PlayVsAi.JoinThenSplit | static/js/play_vs_ai.js:682-691 | Writing a request and splitting it again gives the request. |
| PlayVsAi.AiStatusPrecedence | static/js/play_vs_ai.js:330-386 | About `AiStatus`, the model of `updateGameStatus`. Forfeit first, then draw by agreement, then mate (the side to move loses), then draw, then "Game over!". Each text matches exactly its case. The class "status-draw" is used exactly for the two kinds of draw. |
| PlayVsAi.AiStatusRunning | static/js/play_vs_ai.js:365-382 | In a running game the line starts "<side> to move". The " (in check)" suffix appears exactly when running and in check. |
| PlayVsAi.RowsUpToShape | static/js/play_vs_ai.js:205-220 | About `RowsUpTo`, the rows after each step of the display loop (`RowLayout` for the whole list). After n entries there are ceil(n/2) rows. Row k has number k+1, entry 2k stripped, and entry 2k+1 or "". |
| PlayVsAi.MoveRows | static/js/play_vs_ai.js:199-224 | The display loop builds exactly the row layout stated by `RowsUpToShape`. |
| PlayVsAi.AlternatingRows | static/js/play_vs_ai.js:199-224 | For a game alternating from White: row k shows the SANs of moves 2k and 2k+1. Entry 2k carries the number k+1, which agrees with the row's number. |
| PlayVsAi.ForfeitEntryReads | static/js/play_vs_ai.js:529-530 | About `ForfeitEntry`, the entry the forfeit handler writes. White's forfeit entry at 2h entries carries the number h and strips to "White forfeits". |
| PlayVsAi.WhiteForfeitRow | static/js/play_vs_ai.js:529-531 | White's forfeit is written with the number n/2, one less than its row. The row still shows number n/2+1 and "White forfeits". |
| PlayVsAi.SansOfBuildList | static/js/play_vs_ai.js:617-618 | About `Sans`, the loader's per-entry strip. On a list built by `addMoveToList` from moves in SAN shape, the SANs read back are exactly the moves' SANs, in order. |
| PlayVsAi.ListReplayedAppends | static/js/play_vs_ai.js:617-622 | The replay loop's list is the list with the entries of the accepted moves appended, in order. |
| PlayVsAi.CapturesReplayedRecords | static/js/play_vs_ai.js:617-622 | The replay loop's icons record exactly the captures of the accepted moves. |
| PlayVsAi.LoadAppendsReplayed | static/js/play_vs_ai.js:610-622 | The restored list keeps the saved entries as a prefix and grows by the number of accepted moves. It is unchanged exactly when none is accepted, and doubles when all are. |
| PlayVsAi.LoadDuplicatesExample | static/js/play_vs_ai.js:606-622 | The saved list 1. Nc3 Nc6 2. Nb1 Nb8 is restored as 8 entries; the fifth is "3. Nc3". |
| PlayVsAi.AiSession.constructor | static/js/play_vs_ai.js:1-8 | Empty list and icons, no selection, every flag false. |
| PlayVsAi.AiSession.AddMoveToList | static/js/play_vs_ai.js:263-268 | Exactly one entry is appended, numbered from the current length. |
| PlayVsAi.AiSession.UpdateAfterMove | static/js/play_vs_ai.js:169-190 | Appends the move's entry and records its capture. Nothing else in the session changes. |
| PlayVsAi.AiSession.OnDragStart | static/js/play_vs_ai.js:10-66 | A refusal leaves the selection alone. Re-dragging the selected square clears it and refuses. Otherwise the square becomes the selection and the drag is allowed. |
| PlayVsAi.AiSession.OnDrop | static/js/play_vs_ai.js:68-104 | The engine gets the chosen promotion piece. A rejected move gives a snapback and changes nothing. A legal move is appended with its capture recorded. |
| PlayVsAi.AiSession.HandleBoardClick | static/js/play_vs_ai.js:106-167 | An ignored click changes nothing. With a selection, a legal move is recorded and clears the selection. Otherwise a square with the mover's piece becomes the selection. |
| PlayVsAi.AiSession.HandleForfeit | static/js/play_vs_ai.js:515-555 | Nothing happens when the game is over, already forfeited, or not confirmed. Otherwise one entry "<ceil(n/2)>. <side> forfeits" is appended, the game is marked forfeited, and the opponent wins. |
| PlayVsAi.AiSession.HandleOfferDraw | static/js/play_vs_ai.js:470-513 | The game becomes drawn exactly when it was drawn already, or it is not over and the offer is accepted. |
| PlayVsAi.AiSession.StartGame | static/js/play_vs_ai.js:832-877 | Sets the started flag. The move list and the other flags are unchanged, so a forfeited or drawn board stays locked. |
| PlayVsAi.AiSession.NewGame | static/js/play_vs_ai.js:903-952 | Empty list and icons, no selection, every flag cleared. |
| PlayVsAi.AiSession.ApplyComputerMove | static/js/play_vs_ai.js:663-705 | The move is played only on the computer's turn with a non-empty answer. A legal move is recorded; otherwise nothing changes. |
| PlayVsAi.AiSession.SaveThenLoad | static/js/play_vs_ai.js:590-622 | `saveGameState` then `loadGameState` as written. The list comes back with the saved entries as a prefix and one more entry per move the engine accepts again from the saved position. It is unchanged exactly when the engine accepts none. The icons are those already shown, plus one more for every capture the engine accepts again. The started flag comes back. |
| PlayVsAi.AiSession.SaveThenLoadRestoring | static/js/play_vs_ai.js:590-625 | `saveGameState` then the corrected loader. The list and the started flag come back exactly as they were. The icons are those of the saved moves replayed from the start position, starting from none. |
| PlayVsAi.AiSession.ReplayMoves | static/js/play_vs_ai.js:617-622 | The loop's list and icons are `ListReplayed` / `CapturesReplayed` of the SANs. |
| PlayVsAi.AiSession.LoadGameState | static/js/play_vs_ai.js:601-645 | With nothing saved nothing changes. Otherwise: the saved list, plus an entry per move the engine accepts from the saved position; the capture icons of those moves; and the saved started flag. |
| PlayVsAi.AiSession.ReplayCaptures | static/js/play_vs_ai.js:617-622 | The corrected replay rebuilds only the capture icons. |
| PlayVsAi.AiSession.LoadGameStateRestoring | static/js/play_vs_ai.js:601-625 | Corrected loader: the saved list is restored exactly, the icons are rebuilt from none by replaying from the start position, and the started flag is restored. |
| AnalyseGame.RecordReplayed | static/js/analyse_game.js:216-221 | A rejected or non-capturing replayed move changes nothing. A capture adds exactly one icon. |
| AnalyseGame.CaptureAccounting | static/js/analyse_game.js:212-222 | About `CapturesAfter`, the icons after the replay loop. After replaying k moves, the two icon lists together hold one icon per capturing move. |
| AnalyseGame.CaptureIconColors | static/js/analyse_game.js:217-220 | Every icon in the black list is "b"+letter, and every icon in the white list is "w"+letter. |
| AnalyseGame.PairingFlattens | static/js/analyse_game.js:87-93 | Reading the pairs back in order gives the history. |
| AnalyseGame.PairMoves | static/js/analyse_game.js:87-93 | ceil(n/2) pairs. Pair k is (move 2k, move 2k+1 or null). Flattening the pairs gives the history. |
| AnalyseGame.RowIndices | static/js/analyse_game.js:100-117 | About `Table` and `Cell`, the rows built for the pairs. A White item in row j has data-index 2j, and a Black item has 2j+1. |
| AnalyseGame.DataIndexUnique | static/js/analyse_game.js:96-122 | No two rows of the table carry an item with the same data-index. |
| AnalyseGame.ItemSearchFrom | static/js/analyse_game.js:137 | Searching from row j for index d ≥ 2j finds move d's own item, or nothing when its text is empty. |
| AnalyseGame.HighlightFindsCurrentMove | static/js/analyse_game.js:129-142 | About `HighlightedItem`. There is a highlighted item exactly when the cursor is inside the history on a non-empty move. That item is the current move's. |
| AnalyseGame.ClickLandsOnMove | static/js/analyse_game.js:239-245 | Clicking the item shown for move d navigates to d. |
| AnalyseGame.AnalysisStatusPrecedence | static/js/analyse_game.js:48-66 | About `AnalysisStatus`. Mate (the other side wins), then stalemate, then draw, then check, then "<side> to move". Each text matches exactly its case. |
| AnalyseGame.UpdateGameStatus | static/js/analyse_game.js:48-66 | The text follows that precedence. The king is marked only on mate, or on check when there is no stalemate or draw; "checkmate" exactly for mate. |
| AnalyseGame.Replay.constructor | static/js/analyse_game.js:1-5 | No game, the cursor at the start, no icons. |
| AnalyseGame.Replay.NavigateToMove | static/js/analyse_game.js:209-229 | A target outside -1..n-1 changes nothing. Otherwise exactly the first target+1 moves are replayed from a reset engine, the icons are those of that prefix, and the cursor is the target. |
| AnalyseGame.Replay.Next | static/js/analyse_game.js:287-291 | The cursor moves one step forward, or stays at the last move. After a move, the icons and the engine position are those of the history up to the cursor. |
| AnalyseGame.Replay.Prev | static/js/analyse_game.js:293-297 | The cursor moves one step back, or stays at the start. After a move, the icons and the engine position are those of the history up to the cursor. |
| AnalyseGame.Replay.HandleMoveClick | static/js/analyse_game.js:239-245 | A click outside any item, or on an index past the history, does nothing. A click on an item inside the history moves the cursor to its data-index, with the icons and engine position of the history up to it. |
| AnalyseGame.Replay.LoadGame | static/js/analyse_game.js:263-285 | An unreadable game raises the alert and changes nothing. Otherwise the history is installed and the cursor is at the start. |

## Left out

- DOM work is not modelled. This covers highlights, classes, colours, scrolling, `removeHighlights`, and the legal-move highlighting of `handlePieceSelection`. For that function, only its effect on the selection is kept.
- The board widget (`board.position`, `orientation`, reconfiguration) is not modelled.
- Local storage is not modelled. This covers JSON parsing of a malformed record, and a saved `moves` that is not an array. Saved settings and state are `Option` parameters.
- The network calls (`getAIMove`, `getAIDrawDecision`) and their error handling are not modelled. Their answers are parameters.
- The random colour choice, `FileReader`, `prompt`/`alert`/confirm dialogs and the redirect to the analysis page are not modelled; their outcomes are parameters.
- The rules engine is not modelled: legality, check, mate, draws, FEN and SAN generation, PGN parsing. Its answers are function values. Its status flags are unconstrained and not tied to each other or to the moves played.
- The hover preview (`handleMouseoverSquare`/`handleMouseoutSquare`), `flipBoard`/`flipChessBoard`, `updatePlayerNames`, `displayPlayerInfo` and `enableGameButtons` are presentation only.
- `updateMoveList` in static/js/play_vs_ai.js:226-261 is never called, so it is not modelled.
- PlayVsAi.AiSession.UpdateAfterMove: models only the entry and the capture. The check highlight and status it triggers are modelled separately. The save is `SaveGameState`. The computer turn it starts is `ApplyComputerMove`. The model does not chain these calls.
- PlayVsAi.AiSession.HandleOfferDraw, PlayVsAi.AiSession.HandleForfeit, PlayVsAi.AiSession.ApplyComputerMove: each is one atomic step here, but the source splits it around a wait. `handleOfferDraw` checks its guard, then awaits the computer's decision and sets the drawn flag without checking again (static/js/play_vs_ai.js:470-484). `handleForfeitGame` checks its guard before the confirm dialog and appends the entry in the dialog's callback (static/js/play_vs_ai.js:515-530). `checkComputerTurn` reads the side to move before awaiting the move service and plays the answer afterwards without a forfeit or draw guard (static/js/play_vs_ai.js:674-695). In the model the guard and the update see the same state, so interleavings of these waits with other handlers are not captured: for example, a draw accepted after the game ended, or a computer move appended after a forfeit entry.
- PlayVsAi.AiSession.HandleOfferDraw: the `checkComputerTurn()` after both returns is unreachable and not modelled. The banner and the disabled buttons are DOM.
- PlayVsAi.AiSession.StartGame: storing the settings and resetting the engine and widget are outside the model. The move list is not cleared, and the source does not clear it either.
- PlayVsAi.AiSession.NewGame: the saved-state write and the page reload are not modelled.
- PlayVsAi.AiSession.LoadGameState: the stripping is done for all entries before the replay loop rather than per entry. It is pure, so the order does not matter. The button states and player names it restores are DOM.
- PlayVsAi.AiSession.ApplyComputerMove: the difficulty setting passed to the move service (`parseInt`, possibly NaN) does not affect the state and is left out.
- AnalyseGame.Table: the `forEach` that appends one row per pair (static/js/analyse_game.js:96-122) is a function over the pairs, not a loop. The rows come out in pair order; the DOM appends themselves are not modelled.
- AnalyseGame.Replay.LoadGame: the failure case assumes a failed `load_pgn` (static/js/analyse_game.js:271) leaves the engine's position as it was, so `applied` is unchanged. The source restores nothing itself; what the engine holds after a failed parse is up to the rules library, which is not modelled.
- AnalyseGame.ClickTarget: `parseInt` is modelled only on the digit strings the table writes.

## Findings

| source | as written | input that shows it | evidently intended | confidence | as-written member | corrected member |
|---|---|---|---|---|---|---|
| static/js/play_vs_ai.js:601-622 | `loadGameState` first restores the saved entries. It then replays each stripped entry on the engine loaded with the saved (final) position. Every move the engine accepts goes through `updateAfterMove`, which appends its entry a second time and adds a capture's icon once more. | Saved moves ["1. Nc3", "Nc6", "2. Nb1", "Nb8"], with the position after them, where the pieces stand as at the start and White is to move. The engine accepts all four again, so the list becomes 8 entries and the fifth is "3. Nc3". | Restore the saved list as it is and rebuild the engine and capture icons, starting from none, by replaying the SANs from the start position. | not executed | PlayVsAi.LoadDuplicatesExample | PlayVsAi.AiSession.LoadGameStateRestoring |
