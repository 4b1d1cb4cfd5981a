/** The belief about where the police are: normalisation, the diffusion step, barrier masking and
    the scent and hint likelihoods (domain/belief_model.py, domain/belief_updates.py). */
module Belief {
  import opened Geometry
  import opened Grids

  const DEGENERATE_MASS := 0.000000000001

  datatype BeliefMap = BeliefMap(size: nat, grid: Grid) {
    ghost predicate Shaped() {
      size >= 1 && Square(size, grid)
    }

    /** A probability distribution over the cells of the board. */
    ghost predicate Distribution() {
      Shaped() && NonNegative(grid) && Total(grid) == 1.0
    }
  }

  /** The value of a cell, zero off the board. */
  function At(g: Grid, q: Position): real {
    if 0 <= q.row < |g| && 0 <= q.col < |g[q.row]| then g[q.row][q.col] else 0.0
  }

  function Uniform(n: nat): Grid
    requires n >= 1
  {
    Tabulate(n, q => 1.0 / (n * n) as real)
  }

  /** Rescale to total one; degenerate evidence falls back to uniform over the whole board. */
  function Normalize(n: nat, raw: Grid): (b: BeliefMap)
    requires n >= 1 && Square(n, raw)
    ensures b.size == n && Square(n, b.grid)
  {
    var total := Total(raw);
    if total <= DEGENERATE_MASS then BeliefMap(n, Uniform(n))
    else BeliefMap(n, Tabulate(n, q => At(raw, q) / total))
  }

  lemma UniformIsDistribution(n: nat)
    requires n >= 1
    ensures BeliefMap(n, Uniform(n)).Distribution()
    ensures forall r, c :: 0 <= r < n && 0 <= c < n ==> Uniform(n)[r][c] > 0.0
  {
    hide Total;
    var v := 1.0 / (n * n) as real;
    TotalConstant(n, Uniform(n), v);
    assert (n * n) as real == n as real * n as real;
    assert v * (n as real * n as real) == 1.0;
    assert n as real * (n as real * v) == v * (n as real * n as real);
  }

  lemma Divide(x: real, y: real)
    requires y > 0.0
    ensures x / y == (1.0 / y) * x && (x / y) * y == x
    ensures x >= 0.0 ==> x / y >= 0.0
    ensures x > 0.0 <==> x / y > 0.0
  {
  }

  /** Above the threshold normalising divides every cell by the total and yields a distribution. */
  lemma NormalizeRescales(n: nat, raw: Grid)
    requires n >= 1 && Square(n, raw) && NonNegative(raw)
    requires Total(raw) > DEGENERATE_MASS
    ensures Normalize(n, raw).Distribution()
    ensures forall q :: Within(n, q) ==> At(Normalize(n, raw).grid, q) == At(raw, q) / Total(raw)
    ensures forall q :: Within(n, q) ==> (At(Normalize(n, raw).grid, q) > 0.0 <==> At(raw, q) > 0.0)
  {
    hide Total;
    var g, total := Normalize(n, raw).grid, Total(raw);
    forall r, c | 0 <= r < n && 0 <= c < n
      ensures g[r][c] == (1.0 / total) * raw[r][c] && g[r][c] >= 0.0 && (g[r][c] > 0.0 <==> raw[r][c] > 0.0)
    {
      assert At(raw, Position(r, c)) == raw[r][c] >= 0.0;
      Divide(raw[r][c], total);
    }
    forall q | Within(n, q) ensures At(g, q) > 0.0 <==> At(raw, q) > 0.0 {
      assert g[q.row][q.col] > 0.0 <==> raw[q.row][q.col] > 0.0;
    }
    TotalScale(raw, g, 1.0 / total) by {
      forall r | 0 <= r < n ensures RowScaled(raw[r], g[r], 1.0 / total) {
      }
    }
    Divide(total, total);
  }

  lemma NormalizeIsDistribution(n: nat, raw: Grid)
    requires n >= 1 && Square(n, raw) && NonNegative(raw)
    ensures Normalize(n, raw).Distribution()
  {
    if Total(raw) > DEGENERATE_MASS {
      NormalizeRescales(n, raw);
    } else {
      UniformIsDistribution(n);
    }
  }

  /** A grid that already sums to one is left as it is. */
  lemma NormalizeFixesDistributions(n: nat, raw: Grid)
    requires n >= 1 && Square(n, raw) && Total(raw) == 1.0
    ensures Normalize(n, raw).grid == raw
  {
    var b := Normalize(n, raw);
    forall r | 0 <= r < n ensures b.grid[r] == raw[r] {
      forall c | 0 <= c < n ensures b.grid[r][c] == raw[r][c] {
        assert At(raw, Position(r, c)) == raw[r][c];
      }
    }
  }

  // ----- The diffusion step -----

  type Neighbours = Position -> seq<Position>

  ghost predicate StaysOnBoard(n: nat, nf: Neighbours) {
    forall s :: Within(n, s) ==> forall i :: 0 <= i < |nf(s)| ==> Within(n, nf(s)[i])
  }

  function Occurrences(cells: seq<Position>, q: Position): nat {
    if cells == [] then 0
    else Occurrences(cells[..|cells| - 1], q) + if cells[|cells| - 1] == q then 1 else 0
  }

  /** `k` times the amount `each`. */
  function Times(each: real, k: nat): real {
    each * k as real
  }

  /** What cell `q` receives from cell `s`: an equal share of the mass on `s` for each time `q` is
      listed as a successor of `s`, all of it when `s` has no successor and `q` is `s`. */
  function Share(g: Grid, nf: Neighbours, s: Position, q: Position): real {
    var p := At(g, s);
    if p <= 0.0 then 0.0
    else if nf(s) == [] then (if q == s then p else 0.0)
    else Times(p / |nf(s)| as real, Occurrences(nf(s), q))
  }

  /** What `q` receives from all cells before (r, c) in row order. */
  function Inflow(g: Grid, nf: Neighbours, n: nat, r: nat, c: nat, q: Position): real
    decreases r, c
  {
    if c > 0 then Inflow(g, nf, n, r, c - 1, q) + Share(g, nf, Position(r, c - 1), q)
    else if r > 0 then Inflow(g, nf, n, r - 1, n, q)
    else 0.0
  }

  /** The mass on the cells before (r, c) in row order. */
  function MassBefore(g: Grid, n: nat, r: nat, c: nat): real
    decreases r, c
  {
    if c > 0 then MassBefore(g, n, r, c - 1) + At(g, Position(r, c - 1))
    else if r > 0 then MassBefore(g, n, r - 1, n)
    else 0.0
  }

  function InflowGrid(g: Grid, nf: Neighbours, n: nat, r: nat, c: nat): Grid {
    Tabulate(n, q => Inflow(g, nf, n, r, c, q))
  }

  /** Every cell's mass is divided equally among its successors. */
  function Transition(b: BeliefMap, nf: Neighbours): (t: BeliefMap)
    requires b.size >= 1
    ensures t.size == b.size && Square(b.size, t.grid)
  {
    Normalize(b.size, InflowGrid(b.grid, nf, b.size, b.size, 0))
  }

  function OccurrenceGrid(n: nat, cells: seq<Position>): Grid {
    Tabulate(n, q => Occurrences(cells, q) as real)
  }

  lemma {:induction false} OccurrencesTotal(n: nat, cells: seq<Position>)
    requires forall i :: 0 <= i < |cells| ==> Within(n, cells[i])
    ensures Total(OccurrenceGrid(n, cells)) == |cells| as real
  {
    hide Total;
    if cells == [] {
      TotalConstant(n, OccurrenceGrid(n, cells), 0.0);
    } else {
      var last := cells[|cells| - 1];
      OccurrencesTotal(n, cells[..|cells| - 1]);
      TotalIndicator(n, last);
      var a, i, o := OccurrenceGrid(n, cells[..|cells| - 1]), Indicator(n, last), OccurrenceGrid(n, cells);
      forall r | 0 <= r < n ensures RowAdded(a[r], i[r], o[r]) {
      }
      TotalAdd(a, i, o);
    }
  }

  function ShareGrid(n: nat, g: Grid, nf: Neighbours, s: Position): Grid {
    Tabulate(n, q => Share(g, nf, s, q))
  }

  lemma ListedSharesTotal(n: nat, g: Grid, nf: Neighbours, s: Position)
    requires At(g, s) > 0.0 && nf(s) != []
    requires StaysOnBoard(n, nf) && Within(n, s)
    ensures Total(ShareGrid(n, g, nf, s)) == At(g, s) / |nf(s)| as real * |nf(s)| as real
  {
    hide Total;
    var shares, o := ShareGrid(n, g, nf, s), OccurrenceGrid(n, nf(s));
    var each := At(g, s) / |nf(s)| as real;
    OccurrencesTotal(n, nf(s));
    forall r | 0 <= r < n ensures RowScaled(o[r], shares[r], each) {
    }
    TotalScale(o, shares, each);
  }

  /** A source hands on exactly the mass it holds. */
  lemma SharesTotal(n: nat, g: Grid, nf: Neighbours, s: Position)
    requires Within(n, s) && At(g, s) >= 0.0
    requires StaysOnBoard(n, nf)
    ensures Total(ShareGrid(n, g, nf, s)) == At(g, s)
  {
    hide Total;
    var p, shares := At(g, s), ShareGrid(n, g, nf, s);
    if p <= 0.0 {
      TotalConstant(n, shares, 0.0);
    } else if nf(s) == [] {
      TotalIndicator(n, s);
      var i := Indicator(n, s);
      forall r | 0 <= r < n ensures RowScaled(i[r], shares[r], p) {
      }
      TotalScale(i, shares, p);
    } else {
      ListedSharesTotal(n, g, nf, s);
      Divide(p, |nf(s)| as real);
    }
  }

  lemma InflowStep(n: nat, g: Grid, nf: Neighbours, r: nat, c: nat)
    requires c > 0
    ensures Added(InflowGrid(g, nf, n, r, c - 1), ShareGrid(n, g, nf, Position(r, c - 1)),
                  InflowGrid(g, nf, n, r, c))
  {
  }

  lemma InflowNextRow(n: nat, g: Grid, nf: Neighbours, r: nat)
    requires r > 0
    ensures InflowGrid(g, nf, n, r, 0) == InflowGrid(g, nf, n, r - 1, n)
  {
    var a, b := InflowGrid(g, nf, n, r, 0), InflowGrid(g, nf, n, r - 1, n);
    forall i | 0 <= i < n ensures a[i] == b[i] {
      forall j | 0 <= j < n ensures a[i][j] == b[i][j] {
        assert a[i][j] == Inflow(g, nf, n, r, 0, Position(i, j));
      }
    }
  }

  lemma {:induction false} InflowTotal(n: nat, g: Grid, nf: Neighbours, r: nat, c: nat)
    requires r <= n && c <= n && (r == n ==> c == 0)
    requires Square(n, g) && NonNegative(g) && StaysOnBoard(n, nf)
    ensures Total(InflowGrid(g, nf, n, r, c)) == MassBefore(g, n, r, c)
    decreases r, c
  {
    hide Total;
    if c > 0 {
      var s := Position(r, c - 1);
      InflowTotal(n, g, nf, r, c - 1);
      assert g[r][c - 1] >= 0.0;
      SharesTotal(n, g, nf, s);
      InflowStep(n, g, nf, r, c);
      TotalAdd(InflowGrid(g, nf, n, r, c - 1), ShareGrid(n, g, nf, s), InflowGrid(g, nf, n, r, c));
    } else if r > 0 {
      InflowTotal(n, g, nf, r - 1, n);
      InflowNextRow(n, g, nf, r);
    } else {
      TotalConstant(n, InflowGrid(g, nf, n, r, c), 0.0);
    }
  }

  lemma {:induction false} MassBeforeRow(g: Grid, n: nat, r: nat, c: nat)
    requires Square(n, g) && r < n && c <= n
    ensures MassBefore(g, n, r, c) == MassBefore(g, n, r, 0) + RowSum(g[r][..c])
  {
    if c > 0 {
      MassBeforeRow(g, n, r, c - 1);
      assert g[r][..c][..c - 1] == g[r][..c - 1];
    }
  }

  lemma {:induction false} MassBeforeRows(g: Grid, n: nat, r: nat)
    requires Square(n, g) && r <= n
    ensures MassBefore(g, n, r, 0) == RowSum(RowSums(g)[..r])
  {
    if r > 0 {
      MassBeforeRows(g, n, r - 1);
      MassBeforeRow(g, n, r - 1, n);
      assert g[r - 1][..n] == g[r - 1];
      assert RowSums(g)[..r][..r - 1] == RowSums(g)[..r - 1];
    }
  }

  lemma {:induction false} InflowNonNegative(g: Grid, nf: Neighbours, n: nat, r: nat, c: nat, q: Position)
    ensures Inflow(g, nf, n, r, c, q) >= 0.0
    decreases r, c
  {
    if c > 0 {
      InflowNonNegative(g, nf, n, r, c - 1, q);
      ShareNonNegative(g, nf, Position(r, c - 1), q);
    } else if r > 0 {
      InflowNonNegative(g, nf, n, r - 1, n, q);
    }
  }

  lemma ShareNonNegative(g: Grid, nf: Neighbours, s: Position, q: Position)
    ensures Share(g, nf, s, q) >= 0.0
  {
    var p, k, o := At(g, s), |nf(s)| as real, Occurrences(nf(s), q) as real;
    if p > 0.0 && nf(s) != [] {
      Divide(p, k);
      assert p / k * o >= 0.0;
    }
  }

  /** The scatter neither creates nor loses mass, for any non-negative grid and any successor
      function that stays on the board. */
  lemma ScatterConservesMass(n: nat, g: Grid, nf: Neighbours)
    requires Square(n, g) && NonNegative(g) && StaysOnBoard(n, nf)
    ensures Total(InflowGrid(g, nf, n, n, 0)) == Total(g)
    ensures NonNegative(InflowGrid(g, nf, n, n, 0))
  {
    InflowTotal(n, g, nf, n, 0);
    MassBeforeRows(g, n, n);
    assert RowSums(g)[..n] == RowSums(g);
    forall q ensures Inflow(g, nf, n, n, 0, q) >= 0.0 {
      InflowNonNegative(g, nf, n, n, 0, q);
    }
  }

  /** On a distribution the diffusion step yields a distribution, and its closing normalisation
      changes nothing: every cell holds exactly its inflow. */
  lemma TransitionIsDiffusion(b: BeliefMap, nf: Neighbours)
    requires b.Distribution() && StaysOnBoard(b.size, nf)
    ensures Transition(b, nf).Distribution()
    ensures Transition(b, nf).grid == InflowGrid(b.grid, nf, b.size, b.size, 0)
  {
    ScatterConservesMass(b.size, b.grid, nf);
    NormalizeFixesDistributions(b.size, InflowGrid(b.grid, nf, b.size, b.size, 0));
  }

  ghost predicate Holds(raw: array2<real>, n: nat, f: Position -> real)
    reads raw
  {
    raw.Length0 == n && raw.Length1 == n && forall r, c :: 0 <= r < n && 0 <= c < n ==> raw[r, c] == f(Position(r, c))
  }

  /** One source's inner loop: each listed successor receives an equal share. */
  method ScatterCell(raw: array2<real>, n: nat, g: Grid, nf: Neighbours, s: Position, ghost before: Position -> real)
    requires Holds(raw, n, before) && Within(n, s) && StaysOnBoard(n, nf)
    modifies raw
    ensures Holds(raw, n, q => before(q) + Share(g, nf, s, q))
  {
    hide Occurrences, Times;
    var p := At(g, s);
    if p <= 0.0 {
      return;
    }
    var successors := nf(s);
    if successors == [] {
      raw[s.row, s.col] := raw[s.row, s.col] + p;
      return;
    }
    ScatterShares(raw, n, successors, p / |successors| as real, before);
  }

  /** The amount a cell has received once the first `i` successors are served. */
  function Portion(share: real, cells: seq<Position>, i: nat, q: Position): real
    requires i <= |cells|
  {
    Times(share, Occurrences(cells[..i], q))
  }

  lemma PortionGrows(share: real, cells: seq<Position>, i: nat, q: Position)
    requires i < |cells|
    ensures Portion(share, cells, i + 1, q) == Portion(share, cells, i, q) + if q == cells[i] then share else 0.0
  {
    assert cells[..i + 1][..i] == cells[..i];
    var k := Occurrences(cells[..i], q) as real;
    assert share * (k + 1.0) == share * k + share;
  }

  lemma PortionEnds(share: real, cells: seq<Position>, q: Position)
    ensures Portion(share, cells, 0, q) == 0.0
    ensures Portion(share, cells, |cells|, q) == Times(share, Occurrences(cells, q))
  {
    assert cells[..|cells|] == cells;
  }

  method ScatterShares(raw: array2<real>, n: nat, cells: seq<Position>, share: real, ghost before: Position -> real)
    requires Holds(raw, n, before) && cells != []
    requires forall i :: 0 <= i < |cells| ==> Within(n, cells[i])
    modifies raw
    ensures Holds(raw, n, q => before(q) + Times(share, Occurrences(cells, q)))
  {
    hide Portion, Occurrences, Times;
    forall q: Position
      ensures Portion(share, cells, 0, q) == 0.0
      ensures Portion(share, cells, |cells|, q) == Times(share, Occurrences(cells, q))
    {
      PortionEnds(share, cells, q);
    }
    for i := 0 to |cells|
      invariant raw.Length0 == n && raw.Length1 == n
      invariant forall r, c :: 0 <= r < n && 0 <= c < n ==>
                  raw[r, c] == before(Position(r, c)) + Portion(share, cells, i, Position(r, c))
    {
      forall q: Position
        ensures Portion(share, cells, i + 1, q) == Portion(share, cells, i, q) + if q == cells[i] then share else 0.0
      {
        PortionGrows(share, cells, i, q);
      }
      raw[cells[i].row, cells[i].col] := raw[cells[i].row, cells[i].col] + share;
    }
  }

  /** The inner loop over the columns of row `r`. */
  method ScatterRow(raw: array2<real>, n: nat, g: Grid, nf: Neighbours, r: nat)
    requires raw.Length0 == raw.Length1 == n && Square(n, g) && StaysOnBoard(n, nf) && r < n
    requires Holds(raw, n, q => Inflow(g, nf, n, r, 0, q))
    modifies raw
    ensures Holds(raw, n, q => Inflow(g, nf, n, r + 1, 0, q))
  {
    hide Share;
    for c := 0 to n
      invariant Holds(raw, n, q => Inflow(g, nf, n, r, c, q))
    {
      ScatterCell(raw, n, g, nf, Position(r, c), q => Inflow(g, nf, n, r, c, q));
    }
  }

  /** The scatter loop over a mutable grid computes, on every cell, the inflow from all sources. */
  method ApplyTransition(b: BeliefMap, nf: Neighbours) returns (t: BeliefMap)
    requires b.Shaped() && StaysOnBoard(b.size, nf)
    ensures t == Transition(b, nf)
  {
    hide Inflow, Normalize;
    var n := b.size;
    var raw := new real[n, n]((r, c) => 0.0);
    assert Holds(raw, n, q => Inflow(b.grid, nf, n, 0, 0, q)) by { NothingFlowsYet(b.grid, nf, n); }
    for r := 0 to n
      invariant Holds(raw, n, q => Inflow(b.grid, nf, n, r, 0, q))
    {
      ScatterRow(raw, n, b.grid, nf, r);
    }
    var rows := seq(n, r requires 0 <= r < n reads raw => seq(n, c requires 0 <= c < n reads raw => raw[r, c]));
    assert rows == InflowGrid(b.grid, nf, n, n, 0) by {
      forall r | 0 <= r < n ensures rows[r] == InflowGrid(b.grid, nf, n, n, 0)[r] {
      }
    }
    t := Normalize(n, rows);
  }

  lemma NothingFlowsYet(g: Grid, nf: Neighbours, n: nat)
    ensures forall q :: Inflow(g, nf, n, 0, 0, q) == 0.0
  {
  }

  /** Board adjacency never leaves the board. */
  lemma AdjacencyStaysOnBoard(board: Board)
    requires board.size >= 0
    ensures StaysOnBoard(board.size, p => board.AdjacentCells(p))
  {
    forall s, i | Within(board.size, s) && 0 <= i < |board.AdjacentCells(s)|
      ensures Within(board.size, board.AdjacentCells(s)[i])
    {
      assert board.AdjacentCells(s)[i] in board.AdjacentCells(s);
    }
  }

  // ----- Masking and evidence -----

  function MaskGrid(g: Grid, n: nat, barriers: set<Position>): Grid {
    Tabulate(n, q => if q in barriers then 0.0 else At(g, q))
  }

  /** The mass off the barriers. */
  function OpenMass(b: BeliefMap, barriers: set<Position>): real {
    Total(MaskGrid(b.grid, b.size, barriers))
  }

  function BarrierMask(b: BeliefMap, barriers: set<Position>): (m: BeliefMap)
    requires b.size >= 1
    ensures m.size == b.size && Square(b.size, m.grid)
  {
    Normalize(b.size, MaskGrid(b.grid, b.size, barriers))
  }

  /** Masking a distribution: a barrier cell ends at zero exactly when the mass off the barriers
      exceeds the degenerate threshold. */
  lemma MaskClearsBarriers(b: BeliefMap, barriers: set<Position>)
    requires b.Distribution()
    ensures BarrierMask(b, barriers).Distribution()
    ensures forall q :: Within(b.size, q) && q in barriers ==>
              (At(BarrierMask(b, barriers).grid, q) == 0.0 <==> OpenMass(b, barriers) > DEGENERATE_MASS)
  {
    hide Total;
    var raw := MaskGrid(b.grid, b.size, barriers);
    NormalizeIsDistribution(b.size, raw);
    if Total(raw) > DEGENERATE_MASS {
      NormalizeRescales(b.size, raw);
    } else {
      UniformIsDistribution(b.size);
    }
  }

  /** Off the barriers the mask only rescales, by the mass that is left. */
  lemma MaskRescales(b: BeliefMap, barriers: set<Position>, q: Position)
    requires b.Distribution() && OpenMass(b, barriers) > DEGENERATE_MASS && Within(b.size, q)
    ensures OpenMass(b, barriers) * At(BarrierMask(b, barriers).grid, q) == if q in barriers then 0.0 else At(b.grid, q)
  {
    hide Total;
    var raw := MaskGrid(b.grid, b.size, barriers);
    NormalizeRescales(b.size, raw);
    Divide(At(raw, q), Total(raw));
  }

  function WeightedGrid(g: Grid, n: nat, weight: Position -> real): Grid {
    Tabulate(n, q => At(g, q) * weight(q))
  }

  ghost predicate AtLeastOne(n: nat, weight: Position -> real) {
    forall q :: Within(n, q) ==> weight(q) >= 1.0
  }

  /** Multiplying a distribution by weights of at least one never reaches the fallback, and leaves
      zero cells at zero and positive cells positive. */
  lemma WeightingKeepsSupport(b: BeliefMap, weight: Position -> real)
    requires b.Distribution() && AtLeastOne(b.size, weight)
    ensures var raw := WeightedGrid(b.grid, b.size, weight);
            && Total(raw) >= 1.0 && NonNegative(raw)
            && Normalize(b.size, raw).Distribution()
            && forall q :: Within(b.size, q) ==>
                 (At(Normalize(b.size, raw).grid, q) > 0.0 <==> At(b.grid, q) > 0.0)
  {
    hide Total;
    var raw := WeightedGrid(b.grid, b.size, weight);
    var extra := Tabulate(b.size, q => At(b.grid, q) * (weight(q) - 1.0));
    forall r, c | 0 <= r < b.size && 0 <= c < b.size
      ensures raw[r][c] == b.grid[r][c] + extra[r][c] && extra[r][c] >= 0.0
      ensures raw[r][c] > 0.0 <==> b.grid[r][c] > 0.0
    {
      var q := Position(r, c);
      Weigh(b.grid[r][c], weight(q));
      assert At(b.grid, q) == b.grid[r][c];
    }
    forall r | 0 <= r < b.size ensures RowAdded(b.grid[r], extra[r], raw[r]) {
    }
    TotalAdd(b.grid, extra, raw);
    TotalNonNegative(extra);
    NormalizeRescales(b.size, raw);
    forall q | Within(b.size, q)
      ensures At(Normalize(b.size, raw).grid, q) > 0.0 <==> At(b.grid, q) > 0.0
    {
      assert raw[q.row][q.col] > 0.0 <==> b.grid[q.row][q.col] > 0.0;
    }
  }

  lemma Weigh(p: real, w: real)
    requires p >= 0.0 && w >= 1.0
    ensures p * w == p + p * (w - 1.0) && p * (w - 1.0) >= 0.0 && (p * w > 0.0 <==> p > 0.0)
  {
  }

  function ScentWeight(scent: Grid, trust: real): Position -> real {
    q => 1.0 + trust * At(scent, q)
  }

  function ScentLikelihood(b: BeliefMap, scent: Grid, trust: real := 1.0): (m: BeliefMap)
    requires b.size >= 1
    ensures m.size == b.size && Square(b.size, m.grid)
  {
    Normalize(b.size, WeightedGrid(b.grid, b.size, ScentWeight(scent, trust)))
  }

  /** The law of the scent step: every cell is multiplied by one plus the scent on it, over one
      common divisor of at least one. */
  lemma ScentCells(b: BeliefMap, scent: Grid, q: Position)
    requires b.Distribution() && Square(b.size, scent) && NonNegative(scent) && Within(b.size, q)
    ensures var divisor := Total(WeightedGrid(b.grid, b.size, ScentWeight(scent, 1.0)));
            && divisor >= 1.0
            && divisor * At(ScentLikelihood(b, scent).grid, q) == (1.0 + At(scent, q)) * At(b.grid, q)
  {
    hide Total;
    var weight := ScentWeight(scent, 1.0);
    forall p | Within(b.size, p) ensures weight(p) >= 1.0 {
      assert scent[p.row][p.col] >= 0.0;
    }
    WeightingKeepsSupport(b, weight);
    var raw := WeightedGrid(b.grid, b.size, weight);
    NormalizeRescales(b.size, raw);
    Divide(At(raw, q), Total(raw));
  }

  function Min(x: real, y: real): real {
    if x < y then x else y
  }

  function Max(x: real, y: real): real {
    if x < y then y else x
  }

  function RegionGrid(g: Grid, n: nat, region: set<Position>): Grid {
    Tabulate(n, q => if q in region then At(g, q) else 0.0)
  }

  /** The mass on the cells of a region. */
  function RegionMass(b: BeliefMap, region: set<Position>): real {
    Total(RegionGrid(b.grid, b.size, region))
  }

  /** The agreement of a hint, at most one: the mass its region holds over its uniform share. */
  function Capped(share: real, size: real): real
    requires size != 0.0
  {
    Min(1.0, share / size)
  }

  /** The mass of a region in units of one cell's uniform share. */
  function CellsHeld(b: BeliefMap, region: set<Position>): real {
    RegionMass(b, region) * (b.size * b.size) as real
  }

  /** Trust scaled down when the region holds less than its uniform share of the mass. */
  function EffectiveTrust(b: BeliefMap, region: set<Position>, baseTrust: real): real
    requires region != {}
  {
    baseTrust * Capped(CellsHeld(b, region), |region| as real)
  }

  /** The factor by which the hint step multiplies a cell, before the closing normalisation. */
  function HintWeight(region: set<Position>, e: real): Position -> real {
    q => if q in region then 1.0 + e else 1.0
  }

  function HintLikelihood(b: BeliefMap, region: set<Position>, baseTrust: real): (m: BeliefMap)
    requires b.size >= 1
    ensures m.size == b.size && (Square(b.size, b.grid) ==> Square(b.size, m.grid))
  {
    if region == {} then b
    else Normalize(b.size, WeightedGrid(b.grid, b.size, HintWeight(region, EffectiveTrust(b, region, baseTrust))))
  }

  /** The effective trust of a hint lies between zero and the base trust. */
  lemma EffectiveTrustBounds(b: BeliefMap, region: set<Position>, baseTrust: real)
    requires b.Distribution() && region != {} && baseTrust >= 0.0
    ensures 0.0 <= EffectiveTrust(b, region, baseTrust) <= baseTrust
  {
    hide CellsHeld, EffectiveTrust, Capped;
    var share, size := CellsHeld(b, region), |region| as real;
    HeldNonNegative(b, region);
    CappedBounds(share, size);
    TrustIsCapped(b, region, baseTrust);
    Shrink(baseTrust, Capped(share, size));
  }

  lemma HeldNonNegative(b: BeliefMap, region: set<Position>)
    requires b.Distribution()
    ensures CellsHeld(b, region) >= 0.0
  {
    hide Total;
    TotalNonNegative(RegionGrid(b.grid, b.size, region));
    Product(RegionMass(b, region), (b.size * b.size) as real);
  }

  lemma CappedBounds(share: real, size: real)
    requires share >= 0.0 && size > 0.0
    ensures 0.0 <= Capped(share, size) <= 1.0
  {
    Divide(share, size);
  }

  lemma Shrink(x: real, k: real)
    requires x >= 0.0 && 0.0 <= k <= 1.0
    ensures 0.0 <= x * k <= x
  {
  }

  /** The calibration of the trust: in full when the region already holds at least its uniform share
      |R|/(n*n) of the mass, else in proportion to the share it holds. */
  lemma TrustIsCalibrated(b: BeliefMap, region: set<Position>, baseTrust: real)
    requires region != {}
    ensures var share := CellsHeld(b, region);
            EffectiveTrust(b, region, baseTrust) * |region| as real
            == if share >= |region| as real then baseTrust * |region| as real else baseTrust * share
  {
    hide CellsHeld, EffectiveTrust, Capped;
    var share, size := CellsHeld(b, region), |region| as real;
    assert EffectiveTrust(b, region, baseTrust) == baseTrust * Capped(share, size) by {
      TrustIsCapped(b, region, baseTrust);
    }
    CappedScales(share, size);
    Associate(baseTrust, Capped(share, size), size);
  }

  lemma TrustIsCapped(b: BeliefMap, region: set<Position>, baseTrust: real)
    requires region != {}
    ensures EffectiveTrust(b, region, baseTrust)
         == baseTrust * Capped(CellsHeld(b, region), |region| as real)
  {
    hide CellsHeld, Capped;
  }

  lemma CappedScales(share: real, size: real)
    requires size > 0.0
    ensures Capped(share, size) * size == if share >= size then size else share
  {
    Divide(share, size);
    CompareScaled(share / size, size);
  }

  lemma Associate(x: real, y: real, z: real)
    ensures x * y * z == x * (y * z)
  {
  }

  lemma CompareScaled(x: real, size: real)
    requires size > 0.0
    ensures x >= 1.0 <==> x * size >= size
  {
    if x >= 1.0 {
      assert x * size >= 1.0 * size;
    } else {
      assert x * size < 1.0 * size;
    }
  }

  /** The total of the raw hint grid, for a region of prior mass m with effective trust e. */
  function HintTotal(b: BeliefMap, region: set<Position>, baseTrust: real): real
    requires region != {}
  {
    1.0 + RegionMass(b, region) * EffectiveTrust(b, region, baseTrust)
  }

  /** Every cell is multiplied by 1 + e inside the region and by 1 outside, over one common
      divisor 1 + me; zero cells stay zero and no other cell becomes zero. */
  lemma HintCells(b: BeliefMap, region: set<Position>, baseTrust: real, q: Position)
    requires b.Distribution() && region != {} && baseTrust >= 0.0 && Within(b.size, q)
    ensures HintLikelihood(b, region, baseTrust).Distribution()
    ensures HintTotal(b, region, baseTrust) >= 1.0
    ensures HintTotal(b, region, baseTrust) * At(HintLikelihood(b, region, baseTrust).grid, q)
         == HintWeight(region, EffectiveTrust(b, region, baseTrust))(q) * At(b.grid, q)
    ensures At(HintLikelihood(b, region, baseTrust).grid, q) > 0.0 <==> At(b.grid, q) > 0.0
  {
    hide Total, RowSum;
    var n, m, e := b.size, RegionMass(b, region), EffectiveTrust(b, region, baseTrust);
    EffectiveTrustBounds(b, region, baseTrust);
    HintTotals(b, region, e);
    Product(m, e);
    WeightingKeepsSupport(b, HintWeight(region, e));
    var raw := WeightedGrid(b.grid, n, HintWeight(region, e));
    NormalizeRescales(n, raw);
    Divide(At(raw, q), Total(raw));
  }

  /** The law of the hint step: with prior region mass m and effective trust e the posterior
      region mass is m(1+e)/(1+me), and it is never below m. */
  lemma HintLaw(b: BeliefMap, region: set<Position>, baseTrust: real)
    requires b.Distribution() && region != {} && baseTrust >= 0.0
    ensures 0.0 <= RegionMass(b, region) <= 1.0
    ensures 0.0 <= EffectiveTrust(b, region, baseTrust) <= baseTrust
    ensures HintTotal(b, region, baseTrust) * RegionMass(HintLikelihood(b, region, baseTrust), region)
         == (1.0 + EffectiveTrust(b, region, baseTrust)) * RegionMass(b, region)
    ensures RegionMass(HintLikelihood(b, region, baseTrust), region) >= RegionMass(b, region)
  {
    hide Total, RowSum;
    var e := EffectiveTrust(b, region, baseTrust);
    EffectiveTrustBounds(b, region, baseTrust);
    HintTotals(b, region, e);
    HintRegion(b, region, baseTrust);
    HintGrows(RegionMass(b, region), e, RegionMass(HintLikelihood(b, region, baseTrust), region));
  }

  lemma HintRegion(b: BeliefMap, region: set<Position>, baseTrust: real)
    requires b.Distribution() && region != {} && baseTrust >= 0.0
    ensures HintTotal(b, region, baseTrust) * RegionMass(HintLikelihood(b, region, baseTrust), region)
         == (1.0 + EffectiveTrust(b, region, baseTrust)) * RegionMass(b, region)
  {
    hide Total, EffectiveTrust, HintTotal, HintLikelihood, At;
    var after := HintLikelihood(b, region, baseTrust);
    forall q | Within(b.size, q) && q in region
      ensures HintTotal(b, region, baseTrust) * At(after.grid, q)
           == (1.0 + EffectiveTrust(b, region, baseTrust)) * At(b.grid, q)
    {
      HintCells(b, region, baseTrust, q);
    }
    RegionRescaled(b.size, b.grid, after.grid, region,
                   HintTotal(b, region, baseTrust), 1.0 + EffectiveTrust(b, region, baseTrust));
  }

  /** If every cell of a region satisfies k * after == l * before, so do the region masses. */
  lemma RegionRescaled(n: nat, g: Grid, h: Grid, region: set<Position>, k: real, l: real)
    requires forall q :: Within(n, q) && q in region ==> k * At(h, q) == l * At(g, q)
    ensures k * Total(RegionGrid(h, n, region)) == l * Total(RegionGrid(g, n, region))
  {
    hide Total;
    var before, after := RegionGrid(g, n, region), RegionGrid(h, n, region);
    var common := Tabulate(n, q => if q in region then k * At(h, q) else 0.0);
    forall r | 0 <= r < n ensures RowScaled(before[r], common[r], l) {
      forall c | 0 <= c < n ensures common[r][c] == l * before[r][c] {
        var q := Position(r, c);
        assert q in region ==> k * At(h, q) == l * At(g, q);
      }
    }
    forall r | 0 <= r < n ensures RowScaled(after[r], common[r], k) {
    }
    TotalScale(before, common, l);
    TotalScale(after, common, k);
  }

  lemma Product(x: real, y: real)
    requires x >= 0.0 && y >= 0.0
    ensures x * y >= 0.0
  {
  }

  lemma HintGrows(m: real, e: real, after: real)
    requires 0.0 <= m <= 1.0 && e >= 0.0
    requires after * (1.0 + m * e) == m * (1.0 + e)
    ensures after >= m
  {
    Product(m, e);
    Product(m * e, 1.0 - m);
    assert (after - m) * (1.0 + m * e) == m * e * (1.0 - m);
  }

  lemma HintTotals(b: BeliefMap, region: set<Position>, e: real)
    requires b.Distribution() && e >= 0.0
    ensures var m := RegionMass(b, region);
            0.0 <= m <= 1.0 && Total(WeightedGrid(b.grid, b.size, HintWeight(region, e))) == 1.0 + m * e
  {
    hide Total;
    var n, m := b.size, RegionMass(b, region);
    var inside, raw := RegionGrid(b.grid, n, region), WeightedGrid(b.grid, n, HintWeight(region, e));
    var outside := Tabulate(n, q => if q in region then 0.0 else At(b.grid, q));
    forall r | 0 <= r < n ensures RowAdded(inside[r], outside[r], b.grid[r]) {
    }
    TotalAdd(inside, outside, b.grid);
    TotalNonNegative(inside);
    TotalNonNegative(outside);
    var boost := Tabulate(n, q => e * At(inside, q));
    forall r | 0 <= r < n ensures RowScaled(inside[r], boost[r], e) {
    }
    TotalScale(inside, boost, e);
    HintBoost(n, b.grid, region, e);
    TotalAdd(b.grid, boost, raw);
  }

  lemma HintBoost(n: nat, g: Grid, region: set<Position>, e: real)
    requires Square(n, g)
    ensures Added(g, Tabulate(n, q => e * At(RegionGrid(g, n, region), q)), WeightedGrid(g, n, HintWeight(region, e)))
  {
    var boost, raw := Tabulate(n, q => e * At(RegionGrid(g, n, region), q)), WeightedGrid(g, n, HintWeight(region, e));
    forall r | 0 <= r < n ensures RowAdded(g[r], boost[r], raw[r]) {
      forall c | 0 <= c < n ensures raw[r][c] == g[r][c] + boost[r][c] {
        assert At(g, Position(r, c)) == g[r][c];
        Boost(g[r][c], e);
      }
    }
  }

  lemma Boost(p: real, e: real)
    ensures p * (1.0 + e) == p + e * p && p * 1.0 == p
  {
  }
}
