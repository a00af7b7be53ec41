// The material evaluator: the signed sum over the board of each piece's
// value, counted positive for White (colour 1) and negative for Black (-1).

module AI {
  import opened Pieces
  import opened Board

  /** One square's share of the score: nothing for an empty square or a
      king, the piece's value for White and minus it for Black. */
  function Contribution(p: Piece): (r: int)
    ensures r == 0 <==> p.Empty? || p.kind == King
    ensures r > 0 <==> p.Piece? && p.color == White && p.kind != King
    ensures -9 <= r <= 9
  {
    if p.Piece? then Sign(p.color) * PieceValue(p) else 0
  }

  function Sum(xs: seq<int>): int {
    if xs == [] then 0 else Sum(xs[..|xs| - 1]) + xs[|xs| - 1]
  }

  /** The contributions of a row's squares, in order. */
  function RowScores(row: seq<Piece>): (r: seq<int>)
    ensures |r| == |row| && forall j :: 0 <= j < |row| ==> r[j] == Contribution(row[j])
  {
    seq(|row|, j requires 0 <= j < |row| => Contribution(row[j]))
  }

  function RowSum(row: seq<Piece>): int {
    Sum(RowScores(row))
  }

  /** The row totals of a grid, in order. */
  function RowTotals(g: Grid): (r: seq<int>)
    ensures |r| == |g| && forall i :: 0 <= i < |g| ==> r[i] == RowSum(g[i])
  {
    seq(|g|, i requires 0 <= i < |g| => RowSum(g[i]))
  }

  /** The score of a board. */
  function Material(g: Grid): int {
    Sum(RowTotals(g))
  }

  lemma SumSnoc(xs: seq<int>, i: nat)
    requires i < |xs|
    ensures Sum(xs[..i + 1]) == Sum(xs[..i]) + xs[i]
  {
    assert xs[..i + 1][..i] == xs[..i];
  }

  /** `eval_position`: the nested loops over rows and columns adding colour
      times value for every occupied square. */
  method EvalPosition(board: Grid) returns (score: int)
    requires Shape8(board)
    ensures score == Material(board)
  {
    ghost var totals := RowTotals(board);
    score := 0;
    var i := 0;
    while i < 8
      invariant 0 <= i <= 8
      invariant score == Sum(totals[..i])
    {
      ghost var scores := RowScores(board[i]);
      var j := 0;
      while j < 8
        invariant 0 <= j <= 8
        invariant score == Sum(totals[..i]) + Sum(scores[..j])
      {
        var piece := board[i][j];
        if piece.Piece? {
          score := score + Sign(piece.color) * PieceValue(piece);
        }
        SumSnoc(scores, j);
        j := j + 1;
      }
      assert scores[..8] == scores;
      SumSnoc(totals, i);
      i := i + 1;
    }
    assert totals[..8] == totals;
  }

  lemma {:induction false} SumAppend(xs: seq<int>, ys: seq<int>)
    ensures Sum(xs + ys) == Sum(xs) + Sum(ys)
    decreases |ys|
  {
    if ys == [] {
      assert xs + ys == xs;
    } else {
      var init := ys[..|ys| - 1];
      assert (xs + ys)[..|xs + ys| - 1] == xs + init;
      SumAppend(xs, init);
    }
  }

  /** Summing in the opposite order gives the same total. */
  lemma {:induction false} SumReversed(xs: seq<int>)
    ensures Sum(Reversed(xs)) == Sum(xs)
    decreases |xs|
  {
    if xs != [] {
      var init := xs[..|xs| - 1];
      assert Reversed(xs) == [xs[|xs| - 1]] + Reversed(init);
      SumAppend([xs[|xs| - 1]], Reversed(init));
      SumReversed(init);
      assert Sum([xs[|xs| - 1]]) == xs[|xs| - 1] by {
        assert [xs[|xs| - 1]][..0] == [];
      }
    }
  }

  /** Negating every term negates the total. */
  lemma {:induction false} SumNegated(xs: seq<int>, ys: seq<int>)
    requires |xs| == |ys| && forall i :: 0 <= i < |xs| ==> ys[i] == -xs[i]
    ensures Sum(ys) == -Sum(xs)
    decreases |xs|
  {
    if xs != [] {
      SumNegated(xs[..|xs| - 1], ys[..|ys| - 1]);
    }
  }

  /** Changing one term changes the total by the difference. */
  lemma {:induction false} SumUpdate(xs: seq<int>, k: nat, v: int)
    requires k < |xs|
    ensures Sum(xs[k := v]) == Sum(xs) - xs[k] + v
    decreases |xs|
  {
    var n := |xs| - 1;
    if k < n {
      assert xs[k := v][..n] == xs[..n][k := v];
      SumUpdate(xs[..n], k, v);
    } else {
      assert xs[k := v][..n] == xs[..n];
    }
  }

  /** Every piece with its side swapped. */
  function RecolorAll(g: Grid): (r: Grid)
    ensures |r| == |g| && forall i :: 0 <= i < |g| ==> |r[i]| == |g[i]|
    ensures forall i, j :: 0 <= i < |g| && 0 <= j < |g[i]| ==> r[i][j] == Recolored(g[i][j])
  {
    seq(|g|, i requires 0 <= i < |g| => seq(|g[i]|, j requires 0 <= j < |g[i]| => Recolored(g[i][j])))
  }

  lemma RecolorRow(row: seq<Piece>, other: seq<Piece>)
    requires |row| == |other| && forall j :: 0 <= j < |row| ==> other[j] == Recolored(row[j])
    ensures RowSum(other) == -RowSum(row)
  {
    SumNegated(RowScores(row), RowScores(other));
  }

  /** Swapping every piece's side negates the score. */
  lemma RecolorNegates(g: Grid)
    ensures Material(RecolorAll(g)) == -Material(g)
  {
    var r := RecolorAll(g);
    forall i | 0 <= i < |g| ensures RowSum(r[i]) == -RowSum(g[i]) {
      RecolorRow(g[i], r[i]);
    }
    SumNegated(RowTotals(g), RowTotals(r));
  }

  /** `switch_sides` only permutes the squares, so the score is unchanged. */
  lemma RowSumReversed(row: seq<Piece>)
    ensures RowSum(Reversed(row)) == RowSum(row)
  {
    assert RowScores(Reversed(row)) == Reversed(RowScores(row));
    SumReversed(RowScores(row));
  }

  lemma RotationKeeps(g: Grid)
    ensures Material(Rotated(g)) == Material(g)
  {
    var r := Rotated(g);
    var n := |g|;
    forall i | 0 <= i < n ensures RowSum(r[i]) == RowSum(g[n - 1 - i]) {
      assert r[i] == Reversed(g[n - 1 - i]);
      RowSumReversed(g[n - 1 - i]);
    }
    assert RowTotals(r) == Reversed(RowTotals(g));
    SumReversed(RowTotals(g));
  }

  /** Writing one square changes the score by the difference of the old
      and new occupants' contributions. */
  lemma PlaceScore(g: Grid, pos: Pos, p: Piece)
    requires 0 <= pos.0 < |g| && 0 <= pos.1 < |g[pos.0]|
    ensures Material(Place(g, pos, p)) == Material(g) - Contribution(g[pos.0][pos.1]) + Contribution(p)
  {
    var (r, c) := pos;
    var h := Place(g, pos, p);
    assert h[r] == g[r][c := p];
    assert RowScores(h[r]) == RowScores(g[r])[c := Contribution(p)];
    SumUpdate(RowScores(g[r]), c, Contribution(p));
    assert RowTotals(h) == RowTotals(g)[r := RowSum(h[r])];
    SumUpdate(RowTotals(g), r, RowSum(h[r]));
  }

  /** A move changes the score by minus the contribution of what stood on
      the target: nothing when it was empty, the captured piece otherwise
      (and a move onto the same square drops the mover itself). */
  lemma MoveScore(b: Grid, pos: Pos, target: Pos)
    requires Shape8(b) && InBoard(pos) && InBoard(target)
    ensures Material(Moved(b, pos, target)) == Material(b) - Contribution(b[target.0][target.1])
  {
    var mid := Place(b, target, b[pos.0][pos.1]);
    PlaceScore(b, target, b[pos.0][pos.1]);
    PlaceScore(mid, pos, Empty);
  }

  /** The opening layout scores 0: Black's rows mirror White's. */
  lemma DefaultScore()
    ensures Material(DefaultBoard()) == 0
  {
    var b := DefaultBoard();
    DefaultLayout();
    RecolorRow(b[7], b[0]);
    RecolorRow(b[6], b[1]);
    forall i | 2 <= i <= 5 ensures RowSum(b[i]) == 0 {
      SumNegated(RowScores(b[i]), RowScores(b[i]));
    }
    var t := RowTotals(b);
    var rev := Reversed(t);
    forall i | 0 <= i < 8 ensures t[i] == -rev[i] {
      assert rev[i] == t[7 - i];
    }
    SumNegated(rev, t);
    SumReversed(t);
  }
}
