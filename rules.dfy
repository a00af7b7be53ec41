// Move generation: the candidate squares of each piece kind, computed on the
// padded buffer. Candidates are bounds- and occupancy-filtered only; nothing
// here asks whether the mover's own king is left in check.

module Rules {
  import opened Pieces
  import opened Board

  /** `validate_move`: a candidate is admissible when it lies on the board
      and does not hold a piece of the mover's colour. */
  function ValidateMove(color: Side, m: Pos, buff: Grid): (ok: bool)
    requires Shape12(buff)
    ensures ok <==> InBoard(m) && (At(buff, m).Empty? || IsEnemy(color, At(buff, m)))
  {
    0 <= m.0 <= 7 && 0 <= m.1 <= 7 && ColorOf(At(buff, m)) != Of(color)
  }

  /** The occupant's colour is `-1 * color`. */
  predicate IsEnemy(color: Side, p: Piece) {
    ColorOf(p) == Of(Negate(color))
  }

  function Abs(x: int): nat {
    if x < 0 then -x else x
  }

  /** `m` is a knight's jump away from `pos`. */
  predicate KnightJump(pos: Pos, m: Pos) {
    m.0 - pos.0 != 0 && m.1 - pos.1 != 0 && Abs(m.0 - pos.0) + Abs(m.1 - pos.1) == 3
  }

  /** `m` is one of the eight neighbours of `pos`. */
  predicate KingStep(pos: Pos, m: Pos) {
    m != pos && Abs(m.0 - pos.0) <= 1 && Abs(m.1 - pos.1) <= 1
  }

  /** The offsets in the order the source's comprehensions produce them. */
  const KnightDeltas: seq<Pos> := [(-2, -1), (-2, 1), (-1, -2), (-1, 2), (1, -2), (1, 2), (2, -1), (2, 1)]
  const KingDeltas: seq<Pos> := [(-1, -1), (-1, 0), (-1, 1), (0, -1), (0, 1), (1, -1), (1, 0), (1, 1)]

  function Offsets(pos: Pos, deltas: seq<Pos>): (r: seq<Pos>)
    ensures |r| == |deltas|
  {
    seq(|deltas|, i requires 0 <= i < |deltas| => (pos.0 + deltas[i].0, pos.1 + deltas[i].1))
  }

  /** The comprehension `[move for move in moves if self.validate_move(move)]`. */
  function Admissible(color: Side, cands: seq<Pos>, buff: Grid): (r: seq<Pos>)
    requires Shape12(buff)
    ensures forall m :: m in r <==> m in cands && ValidateMove(color, m, buff)
    ensures |r| <= |cands|
  {
    if cands == [] then []
    else (if ValidateMove(color, cands[0], buff) then [cands[0]] else [])
         + Admissible(color, cands[1..], buff)
  }

  lemma KnightOffsets(pos: Pos)
    ensures forall m :: m in Offsets(pos, KnightDeltas) <==> KnightJump(pos, m)
  {
    var o := Offsets(pos, KnightDeltas);
    forall m | KnightJump(pos, m) ensures m in o {
      var dr, dc := m.0 - pos.0, m.1 - pos.1;
      var i := if dr == -2 then (if dc == -1 then 0 else 1)
               else if dr == -1 then (if dc == -2 then 2 else 3)
               else if dr == 1 then (if dc == -2 then 4 else 5)
               else if dc == -1 then 6 else 7;
      assert o[i] == m;
    }
  }

  lemma KingOffsets(pos: Pos)
    ensures forall m :: m in Offsets(pos, KingDeltas) <==> KingStep(pos, m)
  {
    var o := Offsets(pos, KingDeltas);
    forall m | KingStep(pos, m) ensures m in o {
      var dr, dc := m.0 - pos.0, m.1 - pos.1;
      var i := if dr == -1 then dc + 1
               else if dr == 0 then (if dc == -1 then 3 else 4)
               else dc + 6;
      assert o[i] == m;
    }
  }

  /** Knight candidates: exactly the admissible squares a knight's jump away. */
  function KnightMoves(color: Side, pos: Pos, buff: Grid): (r: seq<Pos>)
    requires Shape12(buff)
    ensures forall m :: m in r <==> KnightJump(pos, m) && ValidateMove(color, m, buff)
    ensures |r| <= 8
  {
    KnightOffsets(pos);
    Admissible(color, Offsets(pos, KnightDeltas), buff)
  }

  /** King candidates: exactly the admissible neighbours (no castling). */
  function KingMoves(color: Side, pos: Pos, buff: Grid): (r: seq<Pos>)
    requires Shape12(buff)
    ensures forall m :: m in r <==> KingStep(pos, m) && ValidateMove(color, m, buff)
    ensures |r| <= 8
  {
    KingOffsets(pos);
    Admissible(color, Offsets(pos, KingDeltas), buff)
  }

  /** The neighbour of `s` in direction `d`. */
  function Next(s: Pos, d: Pos): Pos {
    (s.0 + d.0, s.1 + d.1)
  }

  /** The square `k` steps from `pos` in direction `d`. */
  function Step(pos: Pos, d: Pos, k: nat): Pos
    decreases k
  {
    if k == 0 then pos else Step(Next(pos, d), d, k - 1)
  }

  /** `k` steps land on `(pos[0] + i*k, pos[1] + j*k)`, the square the
      source's ray loop computes. */
  lemma {:induction false} StepFormula(pos: Pos, d: Pos, k: nat)
    ensures Step(pos, d, k) == (pos.0 + d.0 * k, pos.1 + d.1 * k)
    decreases k
  {
    if k > 0 {
      StepFormula(Next(pos, d), d, k - 1);
      assert d.0 + d.0 * (k - 1) == d.0 * k && d.1 + d.1 * (k - 1) == d.1 * k;
    }
  }

  lemma {:induction false} StepNext(pos: Pos, d: Pos, k: nat)
    ensures Next(Step(pos, d, k), d) == Step(pos, d, k + 1)
    decreases k
  {
    if k > 0 {
      StepNext(Next(pos, d), d, k - 1);
    }
  }

  const BishopDirs: seq<Pos> := [(-1, -1), (-1, 1), (1, -1), (1, 1)]
  const RookDirs: seq<Pos> := [(1, 0), (-1, 0), (0, 1), (0, -1)]

  /** At most `n` squares of a walk from `s` in direction `d`: an admissible
      square is taken, and the walk stops after an enemy or at the first
      inadmissible square. */
  function Ray(color: Side, s: Pos, d: Pos, n: nat, buff: Grid): (r: seq<Pos>)
    requires Shape12(buff)
    ensures |r| <= n
    decreases n
  {
    if n == 0 || !ValidateMove(color, s, buff) then []
    else if IsEnemy(color, At(buff, s)) then [s]
    else [s] + Ray(color, Next(s, d), d, n - 1, buff)
  }

  /** The walk of a bishop or rook from `pos` along `d` (steps 1 to 7). */
  function Line(color: Side, pos: Pos, d: Pos, buff: Grid): seq<Pos>
    requires Shape12(buff)
  {
    Ray(color, Next(pos, d), d, 7, buff)
  }

  /** The ray walks along each direction, one after the other. */
  function Rays(color: Side, pos: Pos, dirs: seq<Pos>, buff: Grid): seq<Pos>
    requires Shape12(buff)
  {
    if dirs == [] then []
    else Rays(color, pos, dirs[..|dirs| - 1], buff) + Line(color, pos, dirs[|dirs| - 1], buff)
  }

  lemma RaysSnoc(color: Side, pos: Pos, dirs: seq<Pos>, n: nat, buff: Grid)
    requires Shape12(buff) && n < |dirs|
    ensures Rays(color, pos, dirs[..n + 1], buff) == Rays(color, pos, dirs[..n], buff) + Line(color, pos, dirs[n], buff)
  {
    assert dirs[..n + 1][..n] == dirs[..n];
  }

  /** The bishop's list: the four diagonal walks; every candidate is
      admissible. */
  function BishopMoves(color: Side, pos: Pos, buff: Grid): (r: seq<Pos>)
    requires Shape12(buff)
    ensures forall m :: m in r ==> ValidateMove(color, m, buff)
  {
    RaysAdmissible(color, pos, BishopDirs, buff);
    Rays(color, pos, BishopDirs, buff)
  }

  /** The rook's list: the four straight walks; every candidate is
      admissible. */
  function RookMoves(color: Side, pos: Pos, buff: Grid): (r: seq<Pos>)
    requires Shape12(buff)
    ensures forall m :: m in r ==> ValidateMove(color, m, buff)
  {
    RaysAdmissible(color, pos, RookDirs, buff);
    Rays(color, pos, RookDirs, buff)
  }

  /** `m` is one of the first `n` squares from `s` along `d`, and every square
      before it is an empty board square: a slider on `s - d` sees `m`. */
  ghost predicate Reaches(buff: Grid, s: Pos, d: Pos, n: nat, m: Pos)
    requires Shape12(buff)
    decreases n
  {
    n > 0 && (m == s || (InBoard(s) && At(buff, s).Empty? && Reaches(buff, Next(s, d), d, n - 1, m)))
  }

  /** A ray, read geometrically: its squares are exactly the admissible
      squares in sight along the direction. */
  lemma {:induction false} RayMember(color: Side, s: Pos, d: Pos, n: nat, buff: Grid, m: Pos)
    requires Shape12(buff)
    ensures m in Ray(color, s, d, n, buff) <==> Reaches(buff, s, d, n, m) && ValidateMove(color, m, buff)
    decreases n
  {
    if n > 0 && ValidateMove(color, s, buff) && !IsEnemy(color, At(buff, s)) {
      RayMember(color, Next(s, d), d, n - 1, buff, m);
    }
  }

  /** The squares of a ray are consecutive steps from its start, each one
      admissible, and every one but the last an empty board square. */
  lemma {:induction false} RayIndex(color: Side, s: Pos, d: Pos, n: nat, buff: Grid, i: nat)
    requires Shape12(buff) && i < |Ray(color, s, d, n, buff)|
    ensures Ray(color, s, d, n, buff)[i] == Step(s, d, i)
    ensures ValidateMove(color, Step(s, d, i), buff)
    ensures i + 1 < |Ray(color, s, d, n, buff)| ==> InBoard(Step(s, d, i)) && At(buff, Step(s, d, i)).Empty?
    decreases i
  {
    var ray := Ray(color, s, d, n, buff);
    if i > 0 {
      var rest := Ray(color, Next(s, d), d, n - 1, buff);
      assert ray == [s] + rest;
      RayIndex(color, Next(s, d), d, n - 1, buff, i - 1);
      assert ray[i] == rest[i - 1];
    }
  }

  /** A ray shorter than its bound stopped for a reason: its start is not
      admissible, or it ended on an enemy, or the square after its last one
      is not admissible. */
  lemma {:induction false} RayStop(color: Side, s: Pos, d: Pos, n: nat, buff: Grid)
    requires Shape12(buff)
    ensures var ray := Ray(color, s, d, n, buff);
      |ray| < n ==>
        if |ray| == 0 then !ValidateMove(color, s, buff)
        else var last := ray[|ray| - 1];
          InBoard(last) && (IsEnemy(color, At(buff, last)) || !ValidateMove(color, Next(last, d), buff))
    decreases n
  {
    var ray := Ray(color, s, d, n, buff);
    if n > 0 && ValidateMove(color, s, buff) && !IsEnemy(color, At(buff, s)) {
      var rest := Ray(color, Next(s, d), d, n - 1, buff);
      RayStop(color, Next(s, d), d, n - 1, buff);
      assert ray == [s] + rest;
      if |rest| > 0 {
        assert ray[|ray| - 1] == rest[|rest| - 1];
      }
    }
  }

  /** A square is a candidate of a multi-direction walk exactly when it is a
      candidate of the walk along one of the directions. */
  lemma {:induction false} RaysMember(color: Side, pos: Pos, dirs: seq<Pos>, buff: Grid, m: Pos)
    requires Shape12(buff)
    ensures m in Rays(color, pos, dirs, buff) <==> exists d :: d in dirs && m in Line(color, pos, d, buff)
  {
    if dirs != [] {
      var init, last := dirs[..|dirs| - 1], dirs[|dirs| - 1];
      var front, line := Rays(color, pos, init, buff), Line(color, pos, last, buff);
      RaysMember(color, pos, init, buff, m);
      assert Rays(color, pos, dirs, buff) == front + line;
      assert m in front + line <==> m in front || m in line;
      if m in front {
        var d :| d in init && m in Line(color, pos, d, buff);
        assert d in dirs;
      } else if m in line {
        assert last in dirs;
      } else {
        forall d | d in dirs ensures m !in Line(color, pos, d, buff) {
          if d != last {
            assert d in init by { assert dirs == init + [last]; }
          }
        }
      }
    }
  }

  lemma RaysAdmissible(color: Side, pos: Pos, dirs: seq<Pos>, buff: Grid)
    requires Shape12(buff)
    ensures forall m :: m in Rays(color, pos, dirs, buff) ==> ValidateMove(color, m, buff)
  {
    forall m | m in Rays(color, pos, dirs, buff) ensures ValidateMove(color, m, buff) {
      RaysMember(color, pos, dirs, buff, m);
      var d :| d in dirs && m in Line(color, pos, d, buff);
      RayMember(color, Next(pos, d), d, 7, buff, m);
    }
  }

  /** The pawn's en passant condition on a side neighbour. */
  predicate EnPassant(color: Side, neighbour: Piece, landed: Pos) {
    IsEnemy(color, neighbour) && neighbour.kind == Pawn && neighbour.prevMove == Some(landed)
  }

  /** What the pawn rule offers from `pos` (pawns always advance toward row 0):
      only the four squares ahead of it, the forward steps on empty squares
      and the diagonal squares on captures. */
  ghost predicate PawnRule(color: Side, pos: Pos, buff: Grid, moves: seq<Pos>)
    requires Shape12(buff) && InBoard(pos)
  {
    PawnTargets(pos, moves) && PawnAdvances(pos, buff, moves) && PawnCaptures(color, pos, buff, moves)
  }

  ghost predicate PawnTargets(pos: Pos, moves: seq<Pos>) {
    var (r, c) := pos;
    forall m :: m in moves ==> m == (r - 1, c) || m == (r - 2, c) || m == (r - 1, c - 1) || m == (r - 1, c + 1)
  }

  /** The step ahead iff it is empty, with no bounds check; the double step
      only from row 6 over two empty squares. */
  ghost predicate PawnAdvances(pos: Pos, buff: Grid, moves: seq<Pos>)
    requires Shape12(buff) && InBoard(pos)
  {
    var (r, c) := pos;
    ((r - 1, c) in moves <==> At(buff, (r - 1, c)).Empty?) &&
    ((r - 2, c) in moves <==> r == 6 && At(buff, (r - 1, c)).Empty? && At(buff, (r - 2, c)).Empty?)
  }

  /** A diagonal square iff it holds an enemy, or an enemy pawn beside the
      mover has just landed two rows ahead of that square (en passant). */
  ghost predicate PawnCaptures(color: Side, pos: Pos, buff: Grid, moves: seq<Pos>)
    requires Shape12(buff) && InBoard(pos)
  {
    var (r, c) := pos;
    ((r - 1, c - 1) in moves <==>
      IsEnemy(color, At(buff, (r - 1, c - 1))) || EnPassant(color, At(buff, (r, c - 1)), (r - 2, c - 1))) &&
    ((r - 1, c + 1) in moves <==>
      IsEnemy(color, At(buff, (r - 1, c + 1))) || EnPassant(color, At(buff, (r, c + 1)), (r - 2, c + 1)))
  }

  /** No pawn in the buffer has a recorded previous move. */
  ghost predicate NoHistory(buff: Grid)
    requires Shape12(buff)
  {
    forall i, j :: 0 <= i < 12 && 0 <= j < 12 && buff[i][j].Piece? ==> buff[i][j].prevMove == None
  }

  /** The pawn's candidate list: its six conditional parts in order. It
      offers only squares ahead of the pawn, at most six of them. */
  function PawnList(color: Side, pos: Pos, buff: Grid): (moves: seq<Pos>)
    requires Shape12(buff) && InBoard(pos)
    ensures |moves| <= 6 && PawnTargets(pos, moves)
  {
    var p := PawnParts(color, pos, buff);
    p[0] + p[1] + p[2] + p[3] + p[4] + p[5]
  }

  /** The six conditional parts of the pawn's list, in the order the
      program appends them: forward step, double step, the two diagonal
      captures, then the two en passant captures. */
  function PawnParts(color: Side, pos: Pos, buff: Grid): (parts: seq<seq<Pos>>)
    requires Shape12(buff) && InBoard(pos)
    ensures |parts| == 6 && forall i :: 0 <= i < 6 ==> |parts[i]| <= 1
  {
    var (r, c) := pos;
    var ahead := At(buff, (r - 1, c)).Empty?;
    [if ahead then [(r - 1, c)] else [],
     if ahead && r == 6 && At(buff, (r - 2, c)).Empty? then [(r - 2, c)] else [],
     if IsEnemy(color, At(buff, (r - 1, c - 1))) then [(r - 1, c - 1)] else [],
     if IsEnemy(color, At(buff, (r - 1, c + 1))) then [(r - 1, c + 1)] else [],
     if EnPassant(color, At(buff, (r, c - 1)), (r - 2, c - 1)) then [(r - 1, c - 1)] else [],
     if EnPassant(color, At(buff, (r, c + 1)), (r - 2, c + 1)) then [(r - 1, c + 1)] else []]
  }

  lemma PawnListParts(color: Side, pos: Pos, buff: Grid)
    requires Shape12(buff) && InBoard(pos)
    ensures var p := PawnParts(color, pos, buff);
      forall m :: m in PawnList(color, pos, buff) <==>
        m in p[0] || m in p[1] || m in p[2] || m in p[3] || m in p[4] || m in p[5]
  {
  }

  lemma PawnListRule(color: Side, pos: Pos, buff: Grid)
    requires Shape12(buff) && InBoard(pos)
    ensures PawnRule(color, pos, buff, PawnList(color, pos, buff))
    ensures |PawnList(color, pos, buff)| <= 6
  {
    PawnListAdvances(color, pos, buff);
    PawnListCaptures(color, pos, buff);
  }

  lemma PawnListAdvances(color: Side, pos: Pos, buff: Grid)
    requires Shape12(buff) && InBoard(pos)
    ensures PawnAdvances(pos, buff, PawnList(color, pos, buff))
  {
    var (r, c) := pos;
    var p := PawnParts(color, pos, buff);
    var list := PawnList(color, pos, buff);
    PawnListParts(color, pos, buff);
    assert (r - 1, c) in list <==> (r - 1, c) in p[0];
    assert (r - 2, c) in list <==> (r - 2, c) in p[1];
  }

  lemma PawnListCaptures(color: Side, pos: Pos, buff: Grid)
    requires Shape12(buff) && InBoard(pos)
    ensures PawnCaptures(color, pos, buff, PawnList(color, pos, buff))
  {
    var (r, c) := pos;
    var p := PawnParts(color, pos, buff);
    var list := PawnList(color, pos, buff);
    PawnListParts(color, pos, buff);
    assert (r - 1, c - 1) in list <==> (r - 1, c - 1) in p[2] || (r - 1, c - 1) in p[4];
    assert (r - 1, c + 1) in list <==> (r - 1, c + 1) in p[3] || (r - 1, c + 1) in p[5];
  }

  lemma PawnListInBoard(color: Side, pos: Pos, buff: Grid)
    requires Padded(buff) && InBoard(pos)
    ensures pos.0 == 0 ==> (-1, pos.1) in PawnList(color, pos, buff)
    ensures pos.0 >= 1 ==> forall m :: m in PawnList(color, pos, buff) ==> InBoard(m)
  {
    var (r, c) := pos;
    var p := PawnParts(color, pos, buff);
    PawnListParts(color, pos, buff);
    if r == 0 {
      assert At(buff, (-1, c)) == buff[1][2 + c];
    } else {
      forall m | m in PawnList(color, pos, buff) ensures InBoard(m) {
        if m in p[2] {
          OccupiedInBoard(buff, (r - 1, c - 1));
        } else if m in p[3] {
          OccupiedInBoard(buff, (r - 1, c + 1));
        } else if m in p[4] {
          OccupiedInBoard(buff, (r, c - 1));
        } else if m in p[5] {
          OccupiedInBoard(buff, (r, c + 1));
        }
      }
    }
  }

  lemma PawnListNoHistory(color: Side, pos: Pos, buff: Grid)
    requires Shape12(buff) && InBoard(pos) && NoHistory(buff)
    ensures forall m :: m in PawnList(color, pos, buff) && m.1 != pos.1 ==> IsEnemy(color, At(buff, m))
  {
    var (r, c) := pos;
    var p := PawnParts(color, pos, buff);
    PawnListParts(color, pos, buff);
    assert At(buff, (r, c - 1)) == buff[2 + r][2 + (c - 1)];
    assert At(buff, (r, c + 1)) == buff[2 + r][2 + (c + 1)];
    assert p[4] == [] && p[5] == [];
  }

  /** Pawn candidates, built by appending as the source does: the list the
      pawn rule describes. */
  method PawnValidMoves(color: Side, pos: Pos, buff: Grid) returns (moves: seq<Pos>)
    requires Shape12(buff) && InBoard(pos)
    ensures moves == PawnList(color, pos, buff)
  {
    var r, c := pos.0, pos.1;
    ghost var p := PawnParts(color, pos, buff);
    moves := [];
    if At(buff, (r - 1, c)).Empty? {
      moves := moves + [(r - 1, c)];
      if r == 6 && At(buff, (r - 2, c)).Empty? {
        moves := moves + [(r - 2, c)];
      }
    }
    assert moves == p[0] + p[1];
    if IsEnemy(color, At(buff, (r - 1, c - 1))) {
      moves := moves + [(r - 1, c - 1)];
    }
    assert moves == p[0] + p[1] + p[2];
    if IsEnemy(color, At(buff, (r - 1, c + 1))) {
      moves := moves + [(r - 1, c + 1)];
    }
    assert moves == p[0] + p[1] + p[2] + p[3];
    var left, right := At(buff, (r, c - 1)), At(buff, (r, c + 1));
    if EnPassant(color, left, (r - 2, c - 1)) {
      moves := moves + [(r - 1, c - 1)];
    }
    assert moves == p[0] + p[1] + p[2] + p[3] + p[4];
    if EnPassant(color, right, (r - 2, c + 1)) {
      moves := moves + [(r - 1, c + 1)];
    }
  }

  /** One direction of a bishop or rook walk (the inner `for k in range(1, 8)`
      loop): append each admissible step, and break out at an enemy or at
      the first inadmissible square. */
  method WalkRay(color: Side, pos: Pos, d: Pos, buff: Grid, before: seq<Pos>) returns (moves: seq<Pos>)
    requires Shape12(buff)
    ensures moves == before + Line(color, pos, d, buff)
  {
    moves := before;
    var k := 1;
    ghost var rest := Line(color, pos, d, buff);
    while k < 8
      invariant 1 <= k <= 8
      invariant rest == Ray(color, Step(pos, d, k), d, 8 - k, buff)
      invariant moves + rest == before + Line(color, pos, d, buff)
    {
      var m := Step(pos, d, k);
      if ValidateMove(color, m, buff) {
        moves := moves + [m];
        if IsEnemy(color, At(buff, m)) {
          assert rest == [m];
          break;
        }
        StepNext(pos, d, k);
        var next := Ray(color, Step(pos, d, k + 1), d, 8 - (k + 1), buff);
        assert rest == [m] + next;
        assert moves + next == before + Line(color, pos, d, buff) by {
          assert moves == moves[..|moves| - 1] + [m];
          assert moves[..|moves| - 1] + ([m] + next) == (moves[..|moves| - 1] + [m]) + next;
        }
        rest := next;
      } else {
        assert rest == [];
        break;
      }
      k := k + 1;
    }
    if k == 8 {
      assert rest == [];
    }
  }

  /** Bishop and rook candidates: the walks along each direction in turn,
      all appended to one list. */
  method WalkRays(color: Side, pos: Pos, dirs: seq<Pos>, buff: Grid) returns (moves: seq<Pos>)
    requires Shape12(buff)
    ensures moves == Rays(color, pos, dirs, buff)
  {
    moves := [];
    var n := 0;
    while n < |dirs|
      invariant 0 <= n <= |dirs|
      invariant moves == Rays(color, pos, dirs[..n], buff)
    {
      moves := WalkRay(color, pos, dirs[n], buff, moves);
      RaysSnoc(color, pos, dirs, n, buff);
      n := n + 1;
    }
    assert dirs[..|dirs|] == dirs;
  }

  /** The candidate list of `valid_moves`, by the piece's kind: the empty
      square offers nothing, the queen offers the bishop's list followed by
      the rook's, and every candidate of a piece other than a pawn is
      admissible. */
  function Candidates(piece: Piece, pos: Pos, buff: Grid): (moves: seq<Pos>)
    requires Shape12(buff)
    requires piece.Piece? && piece.kind == Pawn ==> InBoard(pos)
    ensures piece.Empty? ==> moves == []
    ensures piece.Piece? && piece.kind == Queen ==>
      moves == BishopMoves(piece.color, pos, buff) + RookMoves(piece.color, pos, buff)
    ensures piece.Piece? && piece.kind != Pawn ==> forall m :: m in moves ==> ValidateMove(piece.color, m, buff)
  {
    match piece
    case Empty => []
    case Piece(kind, color, _) =>
      match kind
      case Pawn => PawnList(color, pos, buff)
      case Knight => KnightMoves(color, pos, buff)
      case Bishop => BishopMoves(color, pos, buff)
      case Rook => RookMoves(color, pos, buff)
      case Queen => BishopMoves(color, pos, buff) + RookMoves(color, pos, buff)
      case King => KingMoves(color, pos, buff)
  }

  /** In a padded buffer every candidate is on the board, except the
      forward step of a pawn standing on row 0. */
  lemma CandidatesInBoard(piece: Piece, pos: Pos, buff: Grid)
    requires Padded(buff) && InBoard(pos)
    requires !(piece.Piece? && piece.kind == Pawn && pos.0 == 0)
    ensures forall m :: m in Candidates(piece, pos, buff) ==> InBoard(m)
  {
    if piece.Piece? && piece.kind == Pawn {
      PawnListInBoard(piece.color, pos, buff);
    }
  }

  /** `valid_moves`, dispatched on the piece's kind: the loops of the pawn,
      bishop, rook and queen build exactly the candidate list, and a pawn's
      list obeys the pawn rule. */
  method ValidMoves(piece: Piece, pos: Pos, buff: Grid) returns (moves: seq<Pos>)
    requires Shape12(buff)
    requires piece.Piece? && piece.kind == Pawn ==> InBoard(pos)
    ensures moves == Candidates(piece, pos, buff)
    ensures piece.Piece? && piece.kind == Pawn ==> PawnRule(piece.color, pos, buff, moves)
  {
    match piece
    case Empty =>
      moves := [];
    case Piece(kind, color, _) =>
      match kind
      case Pawn =>
        moves := PawnValidMoves(color, pos, buff);
        PawnListRule(color, pos, buff);
      case Knight =>
        moves := KnightMoves(color, pos, buff);
      case Bishop =>
        moves := WalkRays(color, pos, BishopDirs, buff);
      case Rook =>
        moves := WalkRays(color, pos, RookDirs, buff);
      case Queen =>
        var diagonal := WalkRays(color, pos, BishopDirs, buff);
        var straight := WalkRays(color, pos, RookDirs, buff);
        moves := diagonal + straight;
      case King =>
        moves := KingMoves(color, pos, buff);
  }
}
