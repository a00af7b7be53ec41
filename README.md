# Chess rules engine and material evaluator

This project models the rules engine of a small console chess program (`Chess.py`) and its naive
material evaluator (`AI.py`), and proves properties of the model.

The game state has three parts:
- the 8×8 `board`;
- `buff_board`, a 12×12 copy of the board surrounded by two rings of empty squares, so that
  move generation can look up to two squares past the edge without a bounds check;
- `king_pos`, the recorded square of each side's king.

Pieces are values of kind, side and an optional previous move (read only by the pawn's en passant
rule). The empty square's colour, a floating-point infinity in the program, is a separate colour that
equals neither side. Pawns always advance towards row 0, because the program turns the board half a
circle after every turn.

Modules, one per file:
- `Pieces` (`pieces.dfy`): sides, colours, kinds, pieces and the `piece_values` table.
- `Board` (`board.dfy`): grids, the padded buffer and the board/buffer invariant. Also the pure
  transformations: placing a piece, moving, turning the board, and the opening layout.
- `Rules` (`rules.dfy`): `validate_move` and every piece kind's `valid_moves`. The bishop and rook
  moves are loops (`WalkRay`, `WalkRays`) and the pawn's moves are six conditional appends in
  sequence (`PawnValidMoves`), each proved equal to its specification function.
- `Check` (`check.dfy`): `in_check` as an ordered first-witness scan, with a geometric reference
  definition of being attacked. `in_checkmate` as a function of the board that gives both the
  verdict and the board left behind.
- `Game` (`game.dfy`): the `Chess` class, whose methods update the board, the buffer and the
  kings' squares in place. `InCheckmate` is proved to agree with the `Check` specification.
- `AI` (`ai.dfy`): `eval_position` as nested loops proved equal to a signed material sum, and the
  properties of that sum.

Several quirks of the program are reproduced as written, not corrected:
- `in_check` inspects the squares diagonally *behind* the king for an enemy pawn, but reports the
  squares diagonally ahead.
- `in_checkmate` gives `None` when the king is not in check, and leaves the first escaping king move
  applied to the board.
- Moving a square onto itself empties it.
- En passant never fires, because no piece ever records a previous move.

## Model

| member | source | states |
|---|---|---|
| Pieces.Negate | Chess.py:46 | `-1 * color` is always the other side |
| Pieces.Sign | AI.py:10 | the integer colour is 1 for White and -1 for Black |
| Pieces.ColorOf | Chess.py:23-25 | an occupant's colour is the infinite colour exactly for the empty square |
| Pieces.MakePiece | Chess.py:31-33 | a freshly built piece has the given kind and side and no previous move |
| Pieces.PieceValue | Chess.py:135 | the value is 0 exactly for the empty square and the king, never above 9, and 9 exactly for the queen |
| Pieces.Recolored | Chess.py:150-152 | recolouring keeps emptiness and kind and swaps the side |
| Board.OccupiedInBoard | Chess.py:155 | in a padded buffer every occupied square lies on the board |
| Board.Pad | Chess.py:155 | the buffer built from an 8×8 board is 12×12 |
| Board.PadExact | Chess.py:155 | the buffer `reset_board` builds satisfies the board/buffer invariant, and it is the only buffer that does |
| Board.Place | Chess.py:248-250 | writing a square changes that square and leaves every other square and the grid's shape as they were |
| Board.Moved | Chess.py:252-254 | a move leaves the origin empty and the target holding the mover, changes no other square, and empties the square when origin and target coincide |
| Board.Rotated | Chess.py:256-260 | turning a grid keeps its number of rows, and row i of the result is as long as row rows-1-i of the original |
| Board.RotatedAt | Chess.py:256-260 | turning a grid sends cell (i, j) to (rows-1-i, cols-1-j) and keeps its shape |
| Board.RotatedTwice | Chess.py:256-260 | turning a grid twice restores it |
| Board.RotatedSynced | Chess.py:256-260 | turning the board and the buffer together keeps the board/buffer invariant |
| Board.Flip | Chess.py:262-263 | the mirrored square of an in-board square is in the board, and the mirror is (7-r, 7-c) |
| Board.DefaultBoard | Chess.py:141-152 | the opening layout is an 8×8 grid |
| Board.DefaultLayout | Chess.py:142-152 | rows 2-5 are empty, rows 0-1 hold Black and rows 6-7 White with the same kind on the same file, and the kings stand on (0, 4) and (7, 4) |
| Rules.ValidateMove | Chess.py:20-21 | a square is admissible exactly when it is on the board and does not hold a piece of the mover's side |
| Rules.Admissible | Chess.py:66 | the filtered list keeps exactly the admissible candidates |
| Rules.KnightOffsets | Chess.py:65 | the eight knight offsets are exactly the squares with \|di\|+\|dj\| = 3 and both steps nonzero |
| Rules.KingOffsets | Chess.py:124 | the eight king offsets are exactly the neighbouring squares |
| Rules.KnightMoves | Chess.py:64-66 | a square is a knight candidate exactly when it is a knight jump away and admissible; at most eight candidates |
| Rules.KingMoves | Chess.py:123-125 | a square is a king candidate exactly when it neighbours the king and is admissible; at most eight candidates |
| Rules.StepFormula | Chess.py:78 | the k-th step along a direction is `pos + k * d` |
| Rules.StepNext | Chess.py:77-78 | one more step along a direction is the next square of the current one |
| Rules.Ray | Chess.py:77-84 | a walk of at most n steps offers at most n squares |
| Rules.RaysSnoc | Chess.py:75-76 | walking one more direction appends that direction's candidates to the list |
| Rules.RayMember | Chess.py:77-84 | a square is offered by a walk exactly when it is admissible and reached over empty board squares only |
| Rules.RayIndex | Chess.py:77-84 | the i-th candidate is the i-th step, it is admissible, and every candidate before the last is an empty board square |
| Rules.RayStop | Chess.py:77-84 | a walk that stops early either offered nothing because its first square is not admissible, or ended on an enemy, or ended before a square that is not admissible |
| Rules.BishopMoves | Chess.py:72-85 | every candidate of the bishop's four diagonal walks is admissible |
| Rules.RookMoves | Chess.py:91-104 | every candidate of the rook's four straight walks is admissible |
| Rules.RaysMember | Chess.py:72-104 | a square is a bishop or rook candidate exactly when some direction's walk offers it |
| Rules.RaysAdmissible | Chess.py:77-84 | every square a multi-direction walk offers is admissible |
| Rules.WalkRay | Chess.py:77-84 | the loop with its two `break`s appends exactly the direction's walk to the list |
| Rules.WalkRays | Chess.py:72-104 | the bishop and rook loops build exactly the concatenation of the walks in the program's direction order |
| Rules.PawnList | Chess.py:35-58 | a pawn only offers the square ahead, two ahead and the two diagonals ahead; at most six entries |
| Rules.PawnParts | Chess.py:38-56 | the pawn's list is built from six conditional parts, each contributing at most one square |
| Rules.PawnListParts | Chess.py:35-58 | a square is in the pawn's list exactly when one of its six parts offers it |
| Rules.PawnListAdvances | Chess.py:38-42 | the square ahead is offered exactly when it is empty, and the double step exactly from row 6 over two empty squares |
| Rules.PawnListCaptures | Chess.py:46-56 | a diagonal square is offered exactly when it holds an enemy or the neighbouring enemy pawn has just made its double step |
| Rules.PawnListRule | Chess.py:35-58 | the pawn's list obeys the whole pawn rule and has at most six entries |
| Rules.PawnListInBoard | Chess.py:38-39 | with a padded buffer, a pawn on row 0 is offered the off-board square (-1, c); from any other row every offer is on the board |
| Rules.PawnListNoHistory | Chess.py:53-56 | when no piece has a previous move, en passant never fires and every diagonal offer holds an enemy |
| Rules.PawnValidMoves | Chess.py:35-58 | the appending code builds exactly the pawn's list |
| Rules.Candidates | Chess.py:27-125 | the empty square offers nothing, the queen offers the bishop list followed by the rook list, and every candidate of a piece other than a pawn is admissible |
| Rules.CandidatesInBoard | Chess.py:38-39 | with a padded buffer, every candidate of any occupant is on the board, except that a pawn on row 0 is not covered |
| Rules.ValidMoves | Chess.py:27-125 | the dispatch on the piece's kind, with the pawn, bishop, rook and queen loops, builds exactly the candidate list, and a pawn's list obeys the pawn rule |
| Check.FirstOf | Chess.py:316-327 | the scan finds nothing exactly when no candidate holds a piece of the wanted kinds; any hit is a candidate holding one |
| Check.FirstOfFirst | Chess.py:316-327 | the scan reports the earliest candidate in list order that holds one of the wanted kinds |
| Check.InCheck | Chess.py:303-329 | an enemy pawn on either inspected square gives a report one row ahead of the king; any other report is an enemy non-pawn piece on the board |
| Check.SlideMember | Chess.py:319-324 | a square is a sliding candidate exactly when it is admissible and seen along a direction over empty squares |
| Check.ScanHit | Chess.py:316-327 | each scan's hit is an enemy piece attacking the square by the rule of its own kind |
| Check.AttackerScanned | Chess.py:316-327 | every attacker of the square is found by the scan for its kind |
| Check.InCheckIffAttacked | Chess.py:303-329 | `in_check` reports a square exactly when the square is attacked by an enemy pawn, knight, bishop, rook, queen or king |
| Check.ReportedAttacker | Chess.py:315-327 | without a pawn threat, a reported square holds an attacker |
| Check.NoneUnattacked | Chess.py:315-329 | without a pawn threat, a square with no report has no attacker |
| Check.InCheckWitness | Chess.py:309-327 | a non-pawn witness is an attacker; a pawn on (r+1, c-1) is reported as (r-1, c-1), and otherwise a pawn on (r+1, c+1) as (r-1, c+1), never the pawn's own square |
| Check.ScanFound | Chess.py:316-327 | each scan's candidate list and kinds select exactly the enemy pieces attacking by that scan's rule |
| Check.ScanPicks | Chess.py:316-327 | one scan reports something exactly when some piece is found by it, and what it reports is found by it |
| Check.InCheckPriority | Chess.py:315-327 | without a pawn threat, a knight attacker is reported before any diagonal bishop or queen, which comes before any straight rook or queen, which comes before a king |
| Check.InCheckRange | Chess.py:309-313 | from an in-board king, the report lies on the board or one step beyond its top, left or right edge |
| Check.Trials | Chess.py:334-338 | the trial moves are the candidates of whatever stands on the king's recorded square, and all of them are on the board |
| Check.EscapesMeaning | Chess.py:341-343 | a trial escapes exactly when the king is no longer attacked after the move |
| Check.FirstEscape | Chess.py:338-344 | the index of the first escaping trial: no earlier trial escapes and the one found does |
| Check.FirstEscapeAt | Chess.py:338-344 | a trial that escapes, with none escaping before it, is the first escape |
| Check.Checkmate | Chess.py:331-352 | the board is left unchanged unless the verdict is `False`, and otherwise it is the original board or the original with one trial move applied |
| Check.CheckmateNotInCheck | Chess.py:331-333 | `in_checkmate` gives `None` exactly when the king is not attacked, and then leaves the board alone |
| Check.CheckmateEscape | Chess.py:338-344 | when a king move escapes, the verdict is `False` and the first escaping move stays applied to the board |
| Check.CheckmateTrapped | Chess.py:346-352 | when no king move escapes, the board is restored, and the verdict is `True` exactly when the checked side's own pieces do not attack the reported square, i.e. `in_check` for the other side finds nothing there |
| Check.NoEscapeTaken | Chess.py:346-352 | after every trial is undone, the verdict is the negation of `in_check` for the other side on the reported square |
| Check.SeesFirst | Chess.py:77-84 | a slider whose neighbouring squares are all occupied or off the board sees only those neighbours |
| Check.WhiteEnclosed | Chess.py:142-152 | in the opening colours the White king's square (7, 4) is surrounded by occupied squares and the edge |
| Check.BlackEnclosed | Chess.py:142-152 | in the opening colours the Black king's square (0, 4) is surrounded by occupied squares and the edge |
| Check.WhiteStartUnattacked | Chess.py:303-329 | in the opening colours no piece attacks (7, 4) |
| Check.BlackStartUnattacked | Chess.py:303-329 | in the opening colours no piece attacks (0, 4) |
| Check.DefaultColors | Chess.py:142-152 | the opening layout has Black on rows 0-1, nothing on rows 2-5 and White on rows 6-7 |
| Check.WhiteNotInCheck | Chess.py:303-329 | in the opening colours `in_check` reports nothing for White's king on (7, 4) |
| Check.BlackNotInCheck | Chess.py:303-329 | in the opening colours `in_check` reports nothing for Black's king on (0, 4) |
| Check.StartNotInCheck | Chess.py:134-155 | in a game started from the opening layout, neither side's king is in check |
| Game.FlipKings | Chess.py:262-263 | mirroring the kings' squares keeps both recorded and on the board |
| Game.StartKings | Chess.py:134 | the kings start recorded on (7, 4) and (0, 4), both on the board |
| Game.SwitchTwice | Chess.py:256-263 | `switch_sides` twice restores the board, the buffer and the kings' squares |
| Game.Chess.constructor | Chess.py:137-138 | a new game holds the given board or the opening layout, with its buffer and the kings' starting squares |
| Game.Chess.ResetBoard | Chess.py:140-155 | the board becomes the given one or the opening layout, the buffer is rebuilt in sync, and the kings' squares are untouched |
| Game.Chess.GetPiece | Chess.py:245-246 | the piece read from the board is the buffer's piece on that square |
| Game.Chess.PlacePiece | Chess.py:248-250 | both grids get the piece at the square, nothing else changes and the invariant is kept |
| Game.Chess.Move | Chess.py:252-254 | the board becomes the moved board, the buffer follows it and the kings' squares stay |
| Game.Chess.SwitchSides | Chess.py:256-263 | both grids are turned half a circle, the kings' squares are mirrored, and the invariant is kept |
| Game.Chess.InCheckAt | Chess.py:303-306 | a square is reported exactly when the given square, or the king's recorded square when none is given, is attacked |
| Game.Chess.MoveAndTest | Chess.py:341-343 | the board becomes the moved board, the buffer follows it, and the result says whether the moved piece's new square is out of check |
| Game.Chess.TryKingMove | Chess.py:339-346 | one trial leaves the king move applied if it escapes and restores the snapshot otherwise |
| Game.Chess.InCheckmate | Chess.py:331-352 | the verdict and the board left behind are those of the checkmate specification; the kings' squares are never changed |
| AI.Contribution | AI.py:9-10 | the empty square and kings contribute 0, only White non-king pieces contribute a positive amount, and no square contributes more than 9 either way |
| AI.EvalPosition | AI.py:4-11 | the nested loops compute the signed material sum of the board |
| AI.RecolorNegates | AI.py:10 | swapping every piece's side negates the score |
| AI.RowSumReversed | AI.py:9-10 | reversing a row does not change its score |
| AI.RotationKeeps | AI.py:6-10 | turning the board half a circle does not change the score |
| AI.PlaceScore | AI.py:10 | writing a square changes the score by the new piece's contribution minus the old one's |
| AI.MoveScore | AI.py:10 | a move lowers the score by the contribution of the piece on the target square, and keeps it when that square was empty |
| AI.DefaultScore | AI.py:4-11 | the opening layout scores 0 |

## Left out

- `translate`: the algebraic-notation front end, which depends on Python substring tests and exceptions.
- `display_board`, `display_available_moves`, `play`, `__str__` and `__repr__`: console input and output.
- `alpha_beta`: it calls `eval_position` and `move` with the wrong arguments and iterates a `None`, so it has no behaviour to model.
- The `King` constructor's writes to `white_king_pos` and `black_king_pos`: these class attributes are never read.
- `king_pos` is a class attribute shared by every `Chess` object. Here it is a field of each object, initialised by the constructor.
- Python's list indexing out of range: a negative index wraps around to the far side, and an index of 12 or more raises `IndexError`. `Check.InCheck` and `Rules.ValidMoves` instead require every square they read to lie inside the buffer.
- Rules.ValidMoves: requires a pawn's own square to be on the board. Every caller passes the square the pawn stands on.
- Game.Chess.InCheckmate: requires that the king's recorded square does not hold a pawn on row 0. Whatever else stands there is handled as the program does: an empty square (a recorded square left stale) offers no trials, and any other piece's candidates are tried. A pawn on row 0 would offer (-1, c), and `move` would then write `board[-1]`, which Python reads as row 7. `Check.Checkmate` and `Check.Trials` carry the same requirement.
- `deepcopy` and object identity: pieces are values. The program shares one pawn object across a row, but mutates it only while building the opening layout, so values behave the same.
- The floating-point infinity of the empty square's colour is a separate colour value. The program only compares colours for equality, so any value distinct from both sides behaves the same.
