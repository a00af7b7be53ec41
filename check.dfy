// Check detection and the checkmate judgement. An attacker of `pos` is found
// by running the knight, bishop, rook and king rules backwards from `pos`
// and looking at what stands on the squares they reach.

module Check {
  import opened Pieces
  import opened Board
  import opened Rules

  /** The square holds a piece of one of `kinds`, of either side. */
  predicate Holds(buff: Grid, m: Pos, kinds: set<Kind>)
    requires Shape12(buff)
  {
    InBuffer(m) && At(buff, m).Piece? && At(buff, m).kind in kinds
  }

  /** The index of the first element of `s` satisfying `p`, or `|s|` when
      there is none: the scan of a `for ... return` loop. */
  function FirstWhere<T>(s: seq<T>, p: T -> bool): (i: nat)
    ensures i <= |s|
    ensures forall j :: 0 <= j < i ==> !p(s[j])
    ensures i < |s| ==> p(s[i])
  {
    if s == [] then 0
    else if p(s[0]) then 0
    else 1 + FirstWhere(s[1..], p)
  }

  /** The first square of `moves` holding one of `kinds`, if any. */
  function FirstOf(buff: Grid, moves: seq<Pos>, kinds: set<Kind>): (r: Option<Pos>)
    requires Shape12(buff)
    ensures r.None? <==> forall m :: m in moves ==> !Holds(buff, m, kinds)
    ensures r.Some? ==> r.value in moves && Holds(buff, r.value, kinds)
  {
    var i := FirstWhere(moves, m => Holds(buff, m, kinds));
    if i < |moves| then Some(moves[i]) else None
  }

  /** The scan reports the first square of `moves`, in list order, that
      holds one of `kinds`. */
  lemma FirstOfFirst(buff: Grid, moves: seq<Pos>, kinds: set<Kind>, i: nat)
    requires Shape12(buff) && i < |moves| && Holds(buff, moves[i], kinds)
    requires forall j :: 0 <= j < i ==> !Holds(buff, moves[j], kinds)
    ensures FirstOf(buff, moves, kinds) == Some(moves[i])
  {
    var k := FirstWhere(moves, m => Holds(buff, m, kinds));
    assert k == i;
  }

  /** An enemy pawn, as `in_check` recognises one. */
  predicate EnemyPawn(color: Side, p: Piece) {
    p.Piece? && p.kind == Pawn && IsEnemy(color, p)
  }

  /** The squares `in_check` inspects for pawns must exist in the buffer. */
  predicate CheckDomain(pos: Pos) {
    InBuffer((pos.0 + 1, pos.1 - 1)) && InBuffer((pos.0 + 1, pos.1 + 1))
  }

  /** `in_check`: the pawn squares first, then the knight, bishop/queen,
      rook/queen and king scans; the first square found, or `None`. An
      enemy pawn seen at (r + 1, c -/+ 1) is reported as (r - 1, c -/+ 1). */
  function InCheck(buff: Grid, color: Side, pos: Pos): (r: Option<Pos>)
    requires Shape12(buff) && CheckDomain(pos)
    ensures PawnThreat(buff, color, pos) ==> r.Some? && r.value.0 == pos.0 - 1
    ensures r.Some? && !PawnThreat(buff, color, pos) ==>
      InBoard(r.value) && IsEnemy(color, At(buff, r.value)) && At(buff, r.value).kind != Pawn
  {
    var (row, col) := pos;
    if EnemyPawn(color, At(buff, (row + 1, col - 1))) then Some((row - 1, col - 1))
    else if EnemyPawn(color, At(buff, (row + 1, col + 1))) then Some((row - 1, col + 1))
    else
      var knight := FirstOf(buff, KnightMoves(color, pos, buff), {Knight});
      if knight.Some? then knight
      else
        var diagonal := FirstOf(buff, BishopMoves(color, pos, buff), {Bishop, Queen});
        if diagonal.Some? then diagonal
        else
          var straight := FirstOf(buff, RookMoves(color, pos, buff), {Rook, Queen});
          if straight.Some? then straight
          else FirstOf(buff, KingMoves(color, pos, buff), {King})
  }

  /** An enemy pawn stands on one of the two squares `in_check` inspects. */
  predicate PawnThreat(buff: Grid, color: Side, pos: Pos)
    requires Shape12(buff) && CheckDomain(pos)
  {
    EnemyPawn(color, At(buff, (pos.0 + 1, pos.1 - 1))) || EnemyPawn(color, At(buff, (pos.0 + 1, pos.1 + 1)))
  }

  /** A slider on `pos` moving along one of `dirs` sees `m`. */
  ghost predicate Sees(buff: Grid, pos: Pos, dirs: seq<Pos>, m: Pos)
    requires Shape12(buff)
  {
    exists d :: d in dirs && Reaches(buff, Next(pos, d), d, 7, m)
  }

  /** A piece of kind `k` on `m` attacks `pos` by the geometry of its kind
      (pawns are handled apart). */
  ghost predicate Threatens(buff: Grid, pos: Pos, m: Pos, k: Kind)
    requires Shape12(buff)
  {
    match k
    case Pawn => false
    case Knight => KnightJump(pos, m)
    case Bishop => Sees(buff, pos, BishopDirs, m)
    case Rook => Sees(buff, pos, RookDirs, m)
    case Queen => Sees(buff, pos, BishopDirs, m) || Sees(buff, pos, RookDirs, m)
    case King => KingStep(pos, m)
  }

  /** The board square `m` holds an enemy piece that attacks `pos`. */
  ghost predicate Attacker(buff: Grid, color: Side, pos: Pos, m: Pos)
    requires Shape12(buff)
  {
    InBoard(m) && IsEnemy(color, At(buff, m)) && Threatens(buff, pos, m, At(buff, m).kind)
  }

  /** The reference meaning of "in check": an enemy pawn on an inspected
      square, or some enemy piece attacking `pos`. */
  ghost predicate Attacked(buff: Grid, color: Side, pos: Pos)
    requires Shape12(buff) && CheckDomain(pos)
  {
    PawnThreat(buff, color, pos) || exists m :: Attacker(buff, color, pos, m)
  }

  /** Membership in the bishop's or rook's list, read geometrically. */
  lemma SlideMember(color: Side, pos: Pos, dirs: seq<Pos>, buff: Grid, m: Pos)
    requires Shape12(buff)
    ensures m in Rays(color, pos, dirs, buff) <==> Sees(buff, pos, dirs, m) && ValidateMove(color, m, buff)
  {
    RaysMember(color, pos, dirs, buff, m);
    if m in Rays(color, pos, dirs, buff) {
      var d :| d in dirs && m in Line(color, pos, d, buff);
      RayMember(color, Next(pos, d), d, 7, buff, m);
    }
    if Sees(buff, pos, dirs, m) && ValidateMove(color, m, buff) {
      var d :| d in dirs && Reaches(buff, Next(pos, d), d, 7, m);
      RayMember(color, Next(pos, d), d, 7, buff, m);
    }
  }

  /** A square of a scan's list that holds a piece of the scanned kinds is
      an enemy piece of that kind, attacking by that kind's geometry. */
  lemma ScanHit(color: Side, pos: Pos, buff: Grid, m: Pos)
    requires Shape12(buff)
    ensures m in KnightMoves(color, pos, buff) && Holds(buff, m, {Knight}) ==> Attacker(buff, color, pos, m)
    ensures m in BishopMoves(color, pos, buff) && Holds(buff, m, {Bishop, Queen}) ==> Attacker(buff, color, pos, m)
    ensures m in RookMoves(color, pos, buff) && Holds(buff, m, {Rook, Queen}) ==> Attacker(buff, color, pos, m)
    ensures m in KingMoves(color, pos, buff) && Holds(buff, m, {King}) ==> Attacker(buff, color, pos, m)
  {
    SlideMember(color, pos, BishopDirs, buff, m);
    SlideMember(color, pos, RookDirs, buff, m);
  }

  /** Every attacker lies on the list of the scan for its kind. */
  lemma AttackerScanned(color: Side, pos: Pos, buff: Grid, m: Pos)
    requires Shape12(buff) && Attacker(buff, color, pos, m)
    ensures At(buff, m).kind == Knight ==> m in KnightMoves(color, pos, buff) && Holds(buff, m, {Knight})
    ensures At(buff, m).kind in {Bishop, Queen} && Sees(buff, pos, BishopDirs, m) ==>
      m in BishopMoves(color, pos, buff) && Holds(buff, m, {Bishop, Queen})
    ensures At(buff, m).kind in {Rook, Queen} && Sees(buff, pos, RookDirs, m) ==>
      m in RookMoves(color, pos, buff) && Holds(buff, m, {Rook, Queen})
    ensures At(buff, m).kind == King ==> m in KingMoves(color, pos, buff) && Holds(buff, m, {King})
  {
    SlideMember(color, pos, BishopDirs, buff, m);
    SlideMember(color, pos, RookDirs, buff, m);
  }

  /** `in_check` finds something exactly when the king square is attacked. */
  lemma {:induction false} InCheckIffAttacked(buff: Grid, color: Side, pos: Pos)
    requires Shape12(buff) && CheckDomain(pos)
    ensures InCheck(buff, color, pos).Some? <==> Attacked(buff, color, pos)
  {
    if !PawnThreat(buff, color, pos) {
      var r := InCheck(buff, color, pos);
      if r.Some? {
        ReportedAttacker(buff, color, pos);
      } else {
        NoneUnattacked(buff, color, pos);
      }
    }
  }

  lemma ReportedAttacker(buff: Grid, color: Side, pos: Pos)
    requires Shape12(buff) && CheckDomain(pos) && !PawnThreat(buff, color, pos)
    requires InCheck(buff, color, pos).Some?
    ensures Attacker(buff, color, pos, InCheck(buff, color, pos).value)
  {
    ScanHit(color, pos, buff, InCheck(buff, color, pos).value);
  }

  lemma NoneUnattacked(buff: Grid, color: Side, pos: Pos)
    requires Shape12(buff) && CheckDomain(pos) && !PawnThreat(buff, color, pos)
    requires InCheck(buff, color, pos).None?
    ensures forall m :: !Attacker(buff, color, pos, m)
  {
    forall m ensures !Attacker(buff, color, pos, m) {
      if Attacker(buff, color, pos, m) {
        AttackerScanned(color, pos, buff, m);
      }
    }
  }

  /** Apart from the pawn case, the square `in_check` reports holds an enemy
      piece attacking `pos` by the rule of its kind; in the pawn case it is
      the square two rows ahead of the inspected pawn, not the pawn's own. */
  lemma InCheckWitness(buff: Grid, color: Side, pos: Pos)
    requires Shape12(buff) && CheckDomain(pos)
    ensures var r := InCheck(buff, color, pos);
      r.Some? && !PawnThreat(buff, color, pos) ==> Attacker(buff, color, pos, r.value)
    ensures var r := InCheck(buff, color, pos);
      PawnThreat(buff, color, pos) ==>
        r == Some((pos.0 - 1, pos.1 - 1)) || r == Some((pos.0 - 1, pos.1 + 1))
    ensures var r := InCheck(buff, color, pos);
      EnemyPawn(color, At(buff, (pos.0 + 1, pos.1 - 1))) ==> r == Some((pos.0 - 1, pos.1 - 1))
    ensures var r := InCheck(buff, color, pos);
      !EnemyPawn(color, At(buff, (pos.0 + 1, pos.1 - 1))) && EnemyPawn(color, At(buff, (pos.0 + 1, pos.1 + 1))) ==>
        r == Some((pos.0 - 1, pos.1 + 1))
  {
    var r := InCheck(buff, color, pos);
    if r.Some? && !PawnThreat(buff, color, pos) {
      ScanHit(color, pos, buff, r.value);
    }
  }

  /** The four scans of `in_check` after the pawn squares, in the order
      they run. */
  datatype Scan = KnightScan | DiagonalScan | StraightScan | KingScan

  /** The board square `m` holds an enemy piece that the scan `s` finds: a
      knight a jump away, a bishop or queen seen along a diagonal, a rook or
      queen seen along a line, or a king one step away. */
  ghost predicate FoundBy(buff: Grid, color: Side, pos: Pos, m: Pos, s: Scan)
    requires Shape12(buff)
  {
    InBoard(m) && IsEnemy(color, At(buff, m)) &&
    match s
    case KnightScan => At(buff, m).kind == Knight && KnightJump(pos, m)
    case DiagonalScan => At(buff, m).kind in {Bishop, Queen} && Sees(buff, pos, BishopDirs, m)
    case StraightScan => At(buff, m).kind in {Rook, Queen} && Sees(buff, pos, RookDirs, m)
    case KingScan => At(buff, m).kind == King && KingStep(pos, m)
  }

  ghost predicate FoundAny(buff: Grid, color: Side, pos: Pos, s: Scan)
    requires Shape12(buff)
  {
    exists m :: FoundBy(buff, color, pos, m, s)
  }

  /** A scan's list and kinds select exactly the pieces the scan finds. */
  lemma ScanFound(color: Side, pos: Pos, buff: Grid, m: Pos, s: Scan)
    requires Shape12(buff)
    ensures FoundBy(buff, color, pos, m, s) <==>
      m in ScanList(color, pos, buff, s) && Holds(buff, m, ScanKinds(s))
  {
    match s
    case KnightScan =>
    case DiagonalScan => SlideMember(color, pos, BishopDirs, buff, m);
    case StraightScan => SlideMember(color, pos, RookDirs, buff, m);
    case KingScan =>
  }

  /** Without a pawn threat, `in_check` reports what the earliest scan that
      finds anything finds: a knight if any knight attacks, else a bishop or
      queen on a diagonal, else a rook or queen on a line, else a king. */
  lemma {:induction false} InCheckPriority(buff: Grid, color: Side, pos: Pos)
    requires Shape12(buff) && CheckDomain(pos) && !PawnThreat(buff, color, pos)
    ensures var r := InCheck(buff, color, pos);
      FoundAny(buff, color, pos, KnightScan) ==>
        r.Some? && FoundBy(buff, color, pos, r.value, KnightScan)
    ensures var r := InCheck(buff, color, pos);
      !FoundAny(buff, color, pos, KnightScan) && FoundAny(buff, color, pos, DiagonalScan) ==>
        r.Some? && FoundBy(buff, color, pos, r.value, DiagonalScan)
    ensures var r := InCheck(buff, color, pos);
      !FoundAny(buff, color, pos, KnightScan) && !FoundAny(buff, color, pos, DiagonalScan) &&
      FoundAny(buff, color, pos, StraightScan) ==>
        r.Some? && FoundBy(buff, color, pos, r.value, StraightScan)
    ensures var r := InCheck(buff, color, pos);
      !FoundAny(buff, color, pos, KnightScan) && !FoundAny(buff, color, pos, DiagonalScan) &&
      !FoundAny(buff, color, pos, StraightScan) ==>
        (r.Some? <==> FoundAny(buff, color, pos, KingScan)) &&
        (r.Some? ==> FoundBy(buff, color, pos, r.value, KingScan))
  {
    var r := InCheck(buff, color, pos);
    var knight := FirstOf(buff, KnightMoves(color, pos, buff), {Knight});
    var diagonal := FirstOf(buff, BishopMoves(color, pos, buff), {Bishop, Queen});
    var straight := FirstOf(buff, RookMoves(color, pos, buff), {Rook, Queen});
    var king := FirstOf(buff, KingMoves(color, pos, buff), {King});
    ScanPicks(color, pos, buff, KnightScan, knight);
    ScanPicks(color, pos, buff, DiagonalScan, diagonal);
    ScanPicks(color, pos, buff, StraightScan, straight);
    ScanPicks(color, pos, buff, KingScan, king);
  }

  /** A scan's list and kinds, by scan. */
  function ScanList(color: Side, pos: Pos, buff: Grid, s: Scan): seq<Pos>
    requires Shape12(buff)
  {
    match s
    case KnightScan => KnightMoves(color, pos, buff)
    case DiagonalScan => BishopMoves(color, pos, buff)
    case StraightScan => RookMoves(color, pos, buff)
    case KingScan => KingMoves(color, pos, buff)
  }

  function ScanKinds(s: Scan): set<Kind> {
    match s
    case KnightScan => {Knight}
    case DiagonalScan => {Bishop, Queen}
    case StraightScan => {Rook, Queen}
    case KingScan => {King}
  }

  /** One scan finds something exactly when some piece is found by it, and
      what it finds is found by it. */
  lemma ScanPicks(color: Side, pos: Pos, buff: Grid, s: Scan, hit: Option<Pos>)
    requires Shape12(buff) && hit == FirstOf(buff, ScanList(color, pos, buff, s), ScanKinds(s))
    ensures hit.Some? <==> FoundAny(buff, color, pos, s)
    ensures hit.Some? ==> FoundBy(buff, color, pos, hit.value, s)
  {
    if hit.Some? {
      ScanFound(color, pos, buff, hit.value, s);
    }
    if FoundAny(buff, color, pos, s) {
      var m :| FoundBy(buff, color, pos, m, s);
      ScanFound(color, pos, buff, m, s);
    }
  }

  /** The reported square, seen from an in-board king: on the board, or one
      step beyond its top, left or right edge in the pawn case. */
  lemma InCheckRange(buff: Grid, color: Side, pos: Pos)
    requires Shape12(buff) && InBoard(pos)
    ensures var r := InCheck(buff, color, pos);
      r.Some? ==> -1 <= r.value.0 <= 7 && -1 <= r.value.1 <= 8 && CheckDomain(r.value)
  {
    InCheckWitness(buff, color, pos);
  }

  /** The recorded king square `kp` is on the board, and what stands there
      is not a pawn on row 0, whose forward step would leave the board. */
  predicate CheckmateDomain(board: Grid, kp: Pos) {
    Shape8(board) && InBoard(kp) &&
    !(board[kp.0][kp.1].Piece? && board[kp.0][kp.1].kind == Pawn && kp.0 == 0)
  }

  /** The moves `in_checkmate` tries: the candidates of whatever stands on
      the recorded king square (none when it is empty), all on the board. */
  function Trials(board: Grid, kp: Pos): (moves: seq<Pos>)
    requires CheckmateDomain(board, kp)
    ensures forall m :: m in moves ==> InBoard(m)
  {
    PadExact(board, Pad(board));
    CandidatesInBoard(board[kp.0][kp.1], kp, Pad(board));
    Candidates(board[kp.0][kp.1], kp, Pad(board))
  }

  /** Moving the king from `kp` to `m` leaves `color` out of check, as
      `in_check(color, m)` sees the board after the move. */
  predicate Escapes(board: Grid, color: Side, kp: Pos, m: Pos)
    requires Shape8(board) && InBoard(kp) && InBoard(m)
  {
    InCheck(Pad(Moved(board, kp, m)), color, m).None?
  }

  /** An escape leaves the king's new square unattacked. */
  lemma EscapesMeaning(board: Grid, color: Side, kp: Pos, m: Pos)
    requires Shape8(board) && InBoard(kp) && InBoard(m)
    ensures Synced(Moved(board, kp, m), Pad(Moved(board, kp, m)))
    ensures Escapes(board, color, kp, m) <==> !Attacked(Pad(Moved(board, kp, m)), color, m)
  {
    var after := Moved(board, kp, m);
    PadExact(after, after);
    InCheckIffAttacked(Pad(after), color, m);
  }

  /** The index of the first king candidate that escapes, or `|moves|`. */
  function FirstEscape(board: Grid, color: Side, kp: Pos, moves: seq<Pos>): (i: nat)
    requires Shape8(board) && InBoard(kp)
    ensures i <= |moves|
    ensures forall j :: 0 <= j < i ==> !(InBoard(moves[j]) && Escapes(board, color, kp, moves[j]))
    ensures i < |moves| ==> InBoard(moves[i]) && Escapes(board, color, kp, moves[i])
  {
    FirstWhere(moves, m => InBoard(m) && Escapes(board, color, kp, m))
  }

  /** A candidate at or before the first escape that escapes is the first. */
  lemma FirstEscapeAt(board: Grid, color: Side, kp: Pos, moves: seq<Pos>, i: nat)
    requires Shape8(board) && InBoard(kp) && i < |moves| && InBoard(moves[i])
    requires FirstEscape(board, color, kp, moves) >= i && Escapes(board, color, kp, moves[i])
    ensures FirstEscape(board, color, kp, moves) == i
  {
  }

  /** `in_checkmate` on `board` with `color`'s king on `kp`: the verdict
      (`None` when not in check) and the board it leaves behind. A king move
      that escapes is returned at once and stays on the board; otherwise
      every trial is undone, and the verdict asks whether `color`'s own
      pieces attack the square `in_check` reported (`in_check` called for
      the other side on that square). */
  function Checkmate(board: Grid, color: Side, kp: Pos): (r: (Option<bool>, Grid))
    requires CheckmateDomain(board, kp)
    ensures r.0 != Some(false) ==> r.1 == board
    ensures r.1 == board || exists m :: m in Trials(board, kp) && r.1 == Moved(board, kp, m)
  {
    var buff := Pad(board);
    var checked := InCheck(buff, color, kp);
    if checked.None? then (None, board)
    else
      var moves := Trials(board, kp);
      var i := FirstEscape(board, color, kp, moves);
      if i < |moves| then (Some(false), Moved(board, kp, moves[i]))
      else
        InCheckRange(buff, color, kp);
        if InCheck(buff, Negate(color), checked.value).Some? then (Some(false), board)
        else (Some(true), board)
  }

  /** `color`'s own pieces, those of the side in check, attack the square
      `in_check` reports for `color`: the piece giving check can be taken. */
  ghost predicate CheckerAttacked(board: Grid, color: Side, kp: Pos)
    requires CheckmateDomain(board, kp)
  {
    var checked := InCheck(Pad(board), color, kp);
    InCheckRange(Pad(board), color, kp);
    checked.Some? && Attacked(Pad(board), Negate(color), checked.value)
  }

  /** `in_checkmate` gives `None`, and leaves the board alone, exactly when
      the king is not attacked. */
  lemma CheckmateNotInCheck(board: Grid, color: Side, kp: Pos)
    requires CheckmateDomain(board, kp)
    ensures Checkmate(board, color, kp).0.None? <==> !Attacked(Pad(board), color, kp)
    ensures Checkmate(board, color, kp).0.None? ==> Checkmate(board, color, kp).1 == board
  {
    InCheckIffAttacked(Pad(board), color, kp);
  }

  /** In check, when some king move escapes, the verdict is `false` and
      the first escaping move is left applied to the board. */
  lemma CheckmateEscape(board: Grid, color: Side, kp: Pos, m: Pos)
    requires CheckmateDomain(board, kp) && InCheck(Pad(board), color, kp).Some?
    requires m in Trials(board, kp) && Escapes(board, color, kp, m)
    ensures var moves := Trials(board, kp);
      var i := FirstEscape(board, color, kp, moves);
      i < |moves| && Checkmate(board, color, kp) == (Some(false), Moved(board, kp, moves[i]))
  {
    var moves := Trials(board, kp);
    var i := FirstEscape(board, color, kp, moves);
    assert i < |moves|;
  }

  /** When no king move escapes, every trial is undone, and the verdict is
      `true` exactly when the checked side's own pieces do not attack the
      reported square. */
  lemma CheckmateTrapped(board: Grid, color: Side, kp: Pos)
    requires CheckmateDomain(board, kp) && Attacked(Pad(board), color, kp)
    requires forall m :: m in Trials(board, kp) ==> !Escapes(board, color, kp, m)
    ensures Checkmate(board, color, kp).1 == board
    ensures Checkmate(board, color, kp).0 == Some(true) <==> !CheckerAttacked(board, color, kp)
    ensures Checkmate(board, color, kp).0 == Some(false) <==> CheckerAttacked(board, color, kp)
  {
    var buff := Pad(board);
    InCheckIffAttacked(buff, color, kp);
    InCheckRange(buff, color, kp);
    var checked := InCheck(buff, color, kp);
    InCheckIffAttacked(buff, Negate(color), checked.value);
    var moves := Trials(board, kp);
    assert forall j :: 0 <= j < |moves| ==> !Escapes(board, color, kp, moves[j]);
    NoEscapeTaken(board, color, kp);
  }

  lemma NoEscapeTaken(board: Grid, color: Side, kp: Pos)
    requires CheckmateDomain(board, kp) && InCheck(Pad(board), color, kp).Some?
    requires FirstEscape(board, color, kp, Trials(board, kp)) == |Trials(board, kp)|
    ensures InBoard(kp) && CheckDomain(InCheck(Pad(board), color, kp).value)
    ensures Checkmate(board, color, kp) ==
      (Some(!InCheck(Pad(board), Negate(color), InCheck(Pad(board), color, kp).value).Some?), board)
  {
    InCheckRange(Pad(board), color, kp);
  }

  /** A slider whose first square in every direction is occupied or off
      the board sees nothing beyond those first squares. */
  lemma SeesFirst(buff: Grid, pos: Pos, dirs: seq<Pos>, m: Pos)
    requires Shape12(buff) && Sees(buff, pos, dirs, m) && Enclosed(buff, pos, dirs)
    ensures exists d :: d in dirs && m == Next(pos, d)
  {
    var d :| d in dirs && Reaches(buff, Next(pos, d), d, 7, m);
  }

  /** The colour pattern of the opening layout: Black on rows 0-1, rows
      2-5 empty, White on rows 6-7. */
  predicate OpeningColors(b: Grid)
    requires Shape8(b)
  {
    forall r, c :: 0 <= r < 8 && 0 <= c < 8 ==>
      (2 <= r <= 5 <==> b[r][c].Empty?) && (r <= 1 ==> b[r][c].color == Black) && (r >= 6 ==> b[r][c].color == White)
  }

  /** Every square next to `pos` along a slider's direction is occupied
      or off the board. */
  predicate Enclosed(buff: Grid, pos: Pos, dirs: seq<Pos>)
    requires Shape12(buff)
  {
    forall d :: d in dirs ==> !(InBoard(Next(pos, d)) && At(buff, Next(pos, d)).Empty?)
  }

  /** With the opening colours, the White king's square (7, 4) is enclosed
      by White pieces and the board's edge. */
  lemma WhiteEnclosed(b: Grid, buff: Grid)
    requires Synced(b, buff) && OpeningColors(b)
    ensures Enclosed(buff, (7, 4), BishopDirs) && Enclosed(buff, (7, 4), RookDirs)
  {
    assert At(buff, (6, 3)) == b[6][3] && At(buff, (6, 4)) == b[6][4] && At(buff, (6, 5)) == b[6][5];
    assert At(buff, (7, 3)) == b[7][3] && At(buff, (7, 5)) == b[7][5];
  }

  /** The Black king's square (0, 4) likewise, by Black pieces. */
  lemma BlackEnclosed(b: Grid, buff: Grid)
    requires Synced(b, buff) && OpeningColors(b)
    ensures Enclosed(buff, (0, 4), BishopDirs) && Enclosed(buff, (0, 4), RookDirs)
  {
    assert At(buff, (1, 3)) == b[1][3] && At(buff, (1, 4)) == b[1][4] && At(buff, (1, 5)) == b[1][5];
    assert At(buff, (0, 3)) == b[0][3] && At(buff, (0, 5)) == b[0][5];
  }

  /** With the opening colours, no piece attacks the White king's square
      (7, 4): Black pieces stand on rows 0-1, out of reach of a knight, a
      king, or a slider blocked by the enclosure. */
  lemma {:induction false} WhiteStartUnattacked(b: Grid, buff: Grid, m: Pos)
    requires Synced(b, buff) && OpeningColors(b)
    requires Enclosed(buff, (7, 4), BishopDirs) && Enclosed(buff, (7, 4), RookDirs)
    ensures !Attacker(buff, White, (7, 4), m)
  {
    if InBoard(m) && IsEnemy(White, At(buff, m)) {
      assert At(buff, m) == b[m.0][m.1];
      assert m.0 <= 1;
      if Sees(buff, (7, 4), BishopDirs, m) {
        SeesFirst(buff, (7, 4), BishopDirs, m);
      }
      if Sees(buff, (7, 4), RookDirs, m) {
        SeesFirst(buff, (7, 4), RookDirs, m);
      }
    }
  }

  /** The Black king's square (0, 4) likewise, with White on rows 6-7. */
  lemma {:induction false} BlackStartUnattacked(b: Grid, buff: Grid, m: Pos)
    requires Synced(b, buff) && OpeningColors(b)
    requires Enclosed(buff, (0, 4), BishopDirs) && Enclosed(buff, (0, 4), RookDirs)
    ensures !Attacker(buff, Black, (0, 4), m)
  {
    if InBoard(m) && IsEnemy(Black, At(buff, m)) {
      assert At(buff, m) == b[m.0][m.1];
      assert m.0 >= 6;
      if Sees(buff, (0, 4), BishopDirs, m) {
        SeesFirst(buff, (0, 4), BishopDirs, m);
      }
      if Sees(buff, (0, 4), RookDirs, m) {
        SeesFirst(buff, (0, 4), RookDirs, m);
      }
    }
  }

  /** The opening layout has the opening colours. */
  lemma DefaultColors()
    ensures OpeningColors(DefaultBoard())
  {
    DefaultLayout();
  }

  /** In a game started from the opening layout neither king is in check. */
  lemma StartNotInCheck(b: Grid, buff: Grid)
    requires b == DefaultBoard() && Synced(b, buff)
    ensures InCheck(buff, White, (7, 4)).None?
    ensures InCheck(buff, Black, (0, 4)).None?
  {
    DefaultColors();
    WhiteNotInCheck(b, buff);
    BlackNotInCheck(b, buff);
  }

  /** With the opening colours the White king on (7, 4) is not in check. */
  lemma {:induction false} WhiteNotInCheck(b: Grid, buff: Grid)
    requires Synced(b, buff) && OpeningColors(b)
    ensures InCheck(buff, White, (7, 4)).None?
  {
    WhiteEnclosed(b, buff);
    forall m ensures !Attacker(buff, White, (7, 4), m) {
      WhiteStartUnattacked(b, buff, m);
    }
    assert buff[10][5] == Empty && buff[10][7] == Empty;
    InCheckIffAttacked(buff, White, (7, 4));
  }

  /** With the opening colours the Black king on (0, 4) is not in check. */
  lemma {:induction false} BlackNotInCheck(b: Grid, buff: Grid)
    requires Synced(b, buff) && OpeningColors(b)
    ensures InCheck(buff, Black, (0, 4)).None?
  {
    BlackEnclosed(b, buff);
    forall m ensures !Attacker(buff, Black, (0, 4), m) {
      BlackStartUnattacked(b, buff, m);
    }
    assert At(buff, (1, 3)) == b[1][3] && At(buff, (1, 5)) == b[1][5];
    InCheckIffAttacked(buff, Black, (0, 4));
  }
}
