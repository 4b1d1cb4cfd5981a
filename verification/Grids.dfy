/** Square grids of reals and their sums. */
module Grids {
  import opened Geometry

  type Grid = seq<seq<real>>

  predicate Square(n: nat, g: Grid) {
    |g| == n && forall r :: 0 <= r < n ==> |g[r]| == n
  }

  /** All cells are at least zero. */
  predicate NonNegative(g: Grid) {
    forall r, c :: 0 <= r < |g| && 0 <= c < |g[r]| ==> g[r][c] >= 0.0
  }

  function Tabulate(n: nat, f: Position -> real): (g: Grid)
    ensures Square(n, g)
    ensures forall r, c :: 0 <= r < n && 0 <= c < n ==> g[r][c] == f(Position(r, c))
  {
    seq(n, r => seq(n, c => f(Position(r, c))))
  }

  function RowSum(row: seq<real>): real {
    if row == [] then 0.0 else RowSum(row[..|row| - 1]) + row[|row| - 1]
  }

  /** The sums of the rows. */
  function RowSums(g: Grid): (sums: seq<real>)
    ensures |sums| == |g|
    ensures forall r :: 0 <= r < |g| ==> sums[r] == RowSum(g[r])
  {
    seq(|g|, r requires 0 <= r < |g| => RowSum(g[r]))
  }

  /** `sum(sum(row) for row in grid)`. */
  function Total(g: Grid): real {
    RowSum(RowSums(g))
  }

  /** `c` is `a` with every entry multiplied by `k`. */
  predicate RowScaled(a: seq<real>, c: seq<real>, k: real) {
    |a| == |c| && forall j :: 0 <= j < |a| ==> c[j] == k * a[j]
  }

  predicate Scaled(a: Grid, c: Grid, k: real) {
    |a| == |c| && forall r :: 0 <= r < |a| ==> RowScaled(a[r], c[r], k)
  }

  lemma {:induction false} RowSumScale(a: seq<real>, c: seq<real>, k: real)
    requires RowScaled(a, c, k)
    ensures RowSum(c) == k * RowSum(a)
    decreases |a|
  {
    if a != [] {
      RowSumScale(a[..|a| - 1], c[..|a| - 1], k);
    }
  }

  lemma TotalScale(a: Grid, c: Grid, k: real)
    requires Scaled(a, c, k)
    ensures Total(c) == k * Total(a)
  {
    hide RowSum;
    forall r | 0 <= r < |a| ensures RowSum(c[r]) == k * RowSum(a[r]) {
      RowSumScale(a[r], c[r], k);
    }
    RowSumScale(RowSums(a), RowSums(c), k);
  }

  /** `c` is the entrywise sum of `a` and `b`. */
  predicate RowAdded(a: seq<real>, b: seq<real>, c: seq<real>) {
    |a| == |b| == |c| && forall j :: 0 <= j < |a| ==> c[j] == a[j] + b[j]
  }

  predicate Added(a: Grid, b: Grid, c: Grid) {
    |a| == |b| == |c| && forall r :: 0 <= r < |a| ==> RowAdded(a[r], b[r], c[r])
  }

  lemma {:induction false} RowSumAdd(a: seq<real>, b: seq<real>, c: seq<real>)
    requires RowAdded(a, b, c)
    ensures RowSum(c) == RowSum(a) + RowSum(b)
  {
    if a != [] {
      RowSumAdd(a[..|a| - 1], b[..|a| - 1], c[..|a| - 1]);
    }
  }

  lemma TotalAdd(a: Grid, b: Grid, c: Grid)
    requires Added(a, b, c)
    ensures Total(c) == Total(a) + Total(b)
  {
    hide RowSum;
    forall r | 0 <= r < |a| ensures RowSum(c[r]) == RowSum(a[r]) + RowSum(b[r]) {
      RowSumAdd(a[r], b[r], c[r]);
    }
    RowSumAdd(RowSums(a), RowSums(b), RowSums(c));
  }

  lemma {:induction false} RowSumNonNegative(row: seq<real>)
    requires forall j :: 0 <= j < |row| ==> row[j] >= 0.0
    ensures RowSum(row) >= 0.0
    ensures forall j :: 0 <= j < |row| ==> row[j] <= RowSum(row)
  {
    if row != [] {
      RowSumNonNegative(row[..|row| - 1]);
      forall j | 0 <= j < |row| ensures row[j] <= RowSum(row) {
        if j < |row| - 1 {
          assert row[..|row| - 1][j] == row[j];
        }
      }
    }
  }

  /** No cell of a non-negative grid exceeds the total. */
  lemma TotalNonNegative(g: Grid)
    requires NonNegative(g)
    ensures Total(g) >= 0.0
    ensures forall r, c :: 0 <= r < |g| && 0 <= c < |g[r]| ==> g[r][c] <= Total(g)
  {
    forall r | 0 <= r < |g| ensures RowSum(g[r]) >= 0.0
      ensures forall c :: 0 <= c < |g[r]| ==> g[r][c] <= RowSum(g[r])
    {
      RowSumNonNegative(g[r]);
    }
    RowSumNonNegative(RowSums(g));
    forall r, c | 0 <= r < |g| && 0 <= c < |g[r]| ensures g[r][c] <= Total(g) {
      assert RowSums(g)[r] <= Total(g);
    }
  }

  lemma {:induction false} RowSumConstant(row: seq<real>, v: real)
    requires forall j :: 0 <= j < |row| ==> row[j] == v
    ensures RowSum(row) == |row| as real * v
    decreases |row|
  {
    if row != [] {
      RowSumConstant(row[..|row| - 1], v);
    }
  }

  lemma TotalConstant(n: nat, g: Grid, v: real)
    requires Square(n, g)
    requires forall r, c :: 0 <= r < n && 0 <= c < n ==> g[r][c] == v
    ensures Total(g) == n as real * (n as real * v)
  {
    hide RowSum;
    forall r | 0 <= r < n ensures RowSum(g[r]) == n as real * v {
      RowSumConstant(g[r], v);
    }
    RowSumConstant(RowSums(g), n as real * v);
  }

  /** One unit on one cell, nothing elsewhere. */
  function Indicator(n: nat, cell: Position): Grid {
    Tabulate(n, q => if q == cell then 1.0 else 0.0)
  }

  lemma {:induction false} RowSumIndicator(row: seq<real>, at: int)
    requires forall j :: 0 <= j < |row| ==> row[j] == if j == at then 1.0 else 0.0
    ensures RowSum(row) == if 0 <= at < |row| then 1.0 else 0.0
  {
    if row != [] {
      RowSumIndicator(row[..|row| - 1], at);
    }
  }

  lemma TotalIndicator(n: nat, cell: Position)
    requires Within(n, cell)
    ensures Total(Indicator(n, cell)) == 1.0
  {
    var g := Indicator(n, cell);
    forall r | 0 <= r < n ensures RowSum(g[r]) == if r == cell.row then 1.0 else 0.0 {
      RowSumIndicator(g[r], if r == cell.row then cell.col else -1);
    }
    RowSumIndicator(RowSums(g), cell.row);
  }
}
