/** Scent emission, decay and the validation of received grids (domain/scent.py and
    domain/scent_validation.py). */
module Scent {
  import opened Geometry
  import opened Grids
  import opened Belief
  import opened Options
  import opened Json

  const EMISSION_MATRIX: seq<seq<real>> := [
    [0.04, 0.14, 0.20, 0.14, 0.04],
    [0.14, 0.42, 0.62, 0.42, 0.14],
    [0.20, 0.62, 0.90, 0.62, 0.20],
    [0.14, 0.42, 0.62, 0.42, 0.14],
    [0.04, 0.14, 0.20, 0.14, 0.04]
  ]

  const EMISSION_RADIUS := 2
  const PEAK := 0.9
  const DECAY := 0.1
  const LEGAL_MAX_VALUE := 9.45

  /** What one turn at `source` adds to cell `q`: the matrix centred on the source. */
  function Emission(source: Position, q: Position): (e: real)
    ensures 0.0 <= e <= PEAK
    ensures e == PEAK <==> q == source
    ensures e > 0.0 <==> Abs(q.row - source.row) <= EMISSION_RADIUS && Abs(q.col - source.col) <= EMISSION_RADIUS
  {
    var dRow, dCol := q.row - source.row, q.col - source.col;
    if -2 <= dRow <= 2 && -2 <= dCol <= 2 then EMISSION_MATRIX[dRow + 2][dCol + 2] else 0.0
  }

  /** The emission by distance: it depends only on how many rows and columns apart the cells are, in
      either order, and has six values. */
  lemma EmissionByDistance(source: Position, q: Position)
    ensures var far, near := Further(source, q), Nearer(source, q);
            Emission(source, q)
            == if far == 0 then 0.90
               else if far == 1 then (if near == 0 then 0.62 else 0.42)
               else if far == 2 then (if near == 0 then 0.20 else if near == 1 then 0.14 else 0.04)
               else 0.0
  {
  }

  /** The larger and the smaller of the two coordinate distances. */
  function Further(source: Position, q: Position): nat {
    var rows, cols := Abs(q.row - source.row), Abs(q.col - source.col);
    if rows < cols then cols else rows
  }

  function Nearer(source: Position, q: Position): nat {
    var rows, cols := Abs(q.row - source.row), Abs(q.col - source.col);
    if rows < cols then rows else cols
  }

  /** The loop that fills this turn's emission grid, clipped at the board edges. */
  method EmissionDelta(n: nat, source: Position) returns (delta: Grid)
    ensures delta == Tabulate(n, q => Emission(source, q))
  {
    hide Emission;
    var raw := new real[n, n]((r, c) => 0.0);
    for dRow := -EMISSION_RADIUS to EMISSION_RADIUS + 1
      invariant forall r, c :: 0 <= r < n && 0 <= c < n ==>
                  raw[r, c] == if -2 <= r - source.row < dRow then Emission(source, Position(r, c)) else 0.0
    {
      var row := source.row + dRow;
      if !(0 <= row < n) {
        continue;
      }
      for dCol := -EMISSION_RADIUS to EMISSION_RADIUS + 1
        invariant forall r, c :: 0 <= r < n && 0 <= c < n ==>
                    raw[r, c] == if -2 <= r - source.row < dRow || (r == row && -2 <= c - source.col < dCol)
                                 then Emission(source, Position(r, c)) else 0.0
      {
        var col := source.col + dCol;
        if !(0 <= col < n) {
          continue;
        }
        EmissionEntry(source, dRow, dCol);
        raw[row, col] := EMISSION_MATRIX[dRow + EMISSION_RADIUS][dCol + EMISSION_RADIUS];
      }
      forall r, c | 0 <= r < n && 0 <= c < n
        ensures Abs(c - source.col) > 2 ==> Emission(source, Position(r, c)) == 0.0
      {
        assert Emission(source, Position(r, c)) >= 0.0;
      }
    }
    forall r, c | 0 <= r < n && 0 <= c < n
      ensures Abs(r - source.row) > 2 ==> Emission(source, Position(r, c)) == 0.0
    {
      assert Emission(source, Position(r, c)) >= 0.0;
    }
    delta := seq(n, r requires 0 <= r < n reads raw => seq(n, c requires 0 <= c < n reads raw => raw[r, c]));
    forall r | 0 <= r < n ensures delta[r] == Tabulate(n, q => Emission(source, q))[r] {
    }
  }

  lemma EmissionEntry(source: Position, dRow: int, dCol: int)
    requires -2 <= dRow <= 2 && -2 <= dCol <= 2
    ensures EMISSION_MATRIX[dRow + 2][dCol + 2] == Emission(source, Position(source.row + dRow, source.col + dCol))
  {
  }

  function Empty(n: nat): Grid {
    Tabulate(n, q => 0.0)
  }

  /** Decay, then add the fresh emission, never below zero. */
  function CellAfter(field: Grid, source: Position, rho: real, q: Position): (x: real)
    ensures x >= 0.0
  {
    Max(0.0, (1.0 - rho) * At(field, q) + Emission(source, q))
  }

  function ApplyTurn(field: Grid, n: nat, source: Position, rho: real): (g: Grid)
    ensures Square(n, g) && NonNegative(g)
  {
    Tabulate(n, q => CellAfter(field, source, rho, q))
  }

  /** The field after emitting once from each cell of a path, starting empty. */
  function FieldAfter(n: nat, path: seq<Position>, rho: real): (g: Grid)
    ensures Square(n, g) && NonNegative(g)
  {
    if path == [] then Empty(n)
    else ApplyTurn(FieldAfter(n, path[..|path| - 1], rho), n, path[|path| - 1], rho)
  }

  function Power(x: real, k: nat): real {
    if k == 0 then 1.0 else x * Power(x, k - 1)
  }

  /** The closed form's first `k` terms, seen after `turns` turns: the emission from the i-th cell
      of the path, decayed once for every later turn. */
  function Remembered(path: seq<Position>, q: Position, keep: real, turns: nat, k: nat): real
    requires k <= |path| && k <= turns
  {
    if k == 0 then 0.0
    else Remembered(path, q, keep, turns, k - 1) + Power(keep, turns - k) * Emission(path[k - 1], q)
  }

  lemma {:induction false} RememberedDecays(path: seq<Position>, q: Position, keep: real, turns: nat, k: nat)
    requires k <= |path| && k <= turns
    ensures Remembered(path, q, keep, turns + 1, k) == keep * Remembered(path, q, keep, turns, k)
    decreases k
  {
    hide Emission, Power;
    if k > 0 {
      RememberedDecays(path, q, keep, turns, k - 1);
      PowerStep(keep, turns - k);
      DecayTerm(keep, Remembered(path, q, keep, turns, k - 1), Power(keep, turns - k), Emission(path[k - 1], q));
    }
  }

  lemma PowerStep(x: real, k: nat)
    ensures Power(x, k + 1) == x * Power(x, k) && Power(x, 0) == 1.0
  {
  }

  lemma DecayTerm(x: real, a: real, p: real, e: real)
    ensures x * (a + p * e) == x * a + (x * p) * e
  {
  }

  lemma {:induction false} RememberedPrefix(path: seq<Position>, q: Position, keep: real, turns: nat, k: nat)
    requires k < |path| && k <= turns
    ensures Remembered(path[..|path| - 1], q, keep, turns, k) == Remembered(path, q, keep, turns, k)
    decreases k
  {
    hide Emission, Power;
    if k > 0 {
      RememberedPrefix(path, q, keep, turns, k - 1);
    }
  }

  lemma RememberedStep(path: seq<Position>, q: Position, keep: real, k: nat)
    requires |path| == k + 1
    ensures Remembered(path, q, keep, k + 1, k + 1)
         == keep * Remembered(path[..k], q, keep, k, k) + Emission(path[k], q)
  {
    hide Emission, Power;
    RememberedPrefix(path, q, keep, k, k);
    RememberedDecays(path, q, keep, k, k);
    PowerStep(keep, 0);
  }

  /** Closed form: after any path and for any decay in [0, 1], each cell holds exactly the decayed
      sum of the emissions it received; the clamp at zero never takes effect. */
  lemma {:induction false} ScentClosedForm(n: nat, path: seq<Position>, rho: real, q: Position)
    requires 0.0 <= rho <= 1.0 && Within(n, q)
    ensures At(FieldAfter(n, path, rho), q) == Remembered(path, q, 1.0 - rho, |path|, |path|)
    decreases |path|
  {
    hide Emission, Power, CellAfter, At;
    if path != [] {
      var k := |path| - 1;
      var field := FieldAfter(n, path[..k], rho);
      ScentClosedForm(n, path[..k], rho, q);
      RememberedStep(path, q, 1.0 - rho, k);
      ClampNeverBites(field, path[k], rho, q);
      AtTabulate(n, field, path[k], rho, q);
    } else {
      AtTabulate(n, [], q, rho, q);
    }
  }

  lemma AtTabulate(n: nat, field: Grid, source: Position, rho: real, q: Position)
    requires Within(n, q)
    ensures At(ApplyTurn(field, n, source, rho), q) == CellAfter(field, source, rho, q)
    ensures At(Empty(n), q) == 0.0
  {
  }

  lemma ClampNeverBites(field: Grid, source: Position, rho: real, q: Position)
    requires 0.0 <= rho <= 1.0 && NonNegative(field)
    ensures CellAfter(field, source, rho, q) == (1.0 - rho) * At(field, q) + Emission(source, q)
  {
    hide Emission;
    Belief.Product(1.0 - rho, At(field, q));
    assert 0.0 <= Emission(source, q);
  }

  /** With decay 0.10 no cell ever exceeds 9(1 - 0.9^n) after n turns. */
  lemma {:induction false} ScentBound(n: nat, path: seq<Position>, q: Position)
    requires Within(n, q)
    ensures 0.0 <= At(FieldAfter(n, path, DECAY), q) <= 9.0 * (1.0 - Power(0.9, |path|)) < 9.0
  {
    hide Emission;
    PowerPositive(|path|);
    if path != [] {
      ScentBound(n, path[..|path| - 1], q);
      assert 0.0 <= Emission(path[|path| - 1], q) <= PEAK;
    }
  }

  lemma {:induction false} PowerPositive(k: nat)
    ensures Power(0.9, k) > 0.0
  {
    if k > 0 {
      PowerPositive(k - 1);
    }
  }

  /** The bound is sharp: a peer that never moves reaches it on its own cell after every turn. */
  lemma {:induction false} ScentBoundIsReached(n: nat, path: seq<Position>, q: Position)
    requires Within(n, q) && forall k :: 0 <= k < |path| ==> path[k] == q
    ensures At(FieldAfter(n, path, DECAY), q) == 9.0 * (1.0 - Power(0.9, |path|))
  {
    hide Emission;
    if path != [] {
      ScentBoundIsReached(n, path[..|path| - 1], q);
      ScentBound(n, path[..|path| - 1], q);
      assert Emission(path[|path| - 1], q) == PEAK;
    }
  }

  // ----- Validation of a received grid -----

  datatype Rejection = Missing | BadDimensions | NonNumeric | NotFinite | Negative | ExceedsLegalMaximum

  /** Overflow: the finiteness test raises on an integer that no double can hold. */
  datatype Validation = Legal | Rejected(reason: Rejection) | Overflow

  function Fourth(x: int): int {
    x * x * x * x
  }

  const TWO_64: int := 0x1_0000_0000_0000_0000
  const TWO_256: int := Fourth(TWO_64)
  const TWO_970: int := 0x400 * TWO_64 * TWO_64 * TWO_64 * TWO_256 * TWO_256 * TWO_256

  /** The least integer whose conversion to a double overflows. */
  const FLOAT_OVERFLOW: int := Fourth(TWO_256) - TWO_970

  function CheckValue(v: Json): Validation {
    match v
    case Int(i) => if Abs(i) >= FLOAT_OVERFLOW then Overflow else CheckRange(i as real)
    case Num(r) => CheckRange(r)
    case NonFinite => Rejected(NotFinite)
    case _ => Rejected(NonNumeric)
  }

  function CheckRange(x: real): Validation {
    if x < 0.0 then Rejected(Negative) else if x > LEGAL_MAX_VALUE then Rejected(ExceedsLegalMaximum) else Legal
  }

  /** The verdict on the first value of a row that is not legal. */
  function CheckValues(row: seq<Json>): (r: Validation)
    ensures r.Legal? <==> forall c :: 0 <= c < |row| ==> CheckValue(row[c]).Legal?
    ensures !r.Legal? ==> exists c :: 0 <= c < |row| && CheckValue(row[c]) == r && LegalBefore(row, c)
  {
    if row == [] then Legal
    else if !CheckValue(row[0]).Legal? then
      assert LegalBefore(row, 0);
      CheckValue(row[0])
    else
      var rest := CheckValues(row[1..]);
      assert forall c :: 1 <= c < |row| ==> row[c] == row[1..][c - 1];
      assert forall c :: 0 <= c < |row[1..]| && LegalBefore(row[1..], c) ==> LegalBefore(row, c + 1);
      rest
  }

  predicate LegalBefore(row: seq<Json>, c: nat)
    requires c <= |row|
  {
    forall d :: 0 <= d < c ==> CheckValue(row[d]).Legal?
  }

  function CheckRow(row: Json, n: nat): Validation {
    if !row.Arr? || |row.items| != n then Rejected(BadDimensions) else CheckValues(row.items)
  }

  predicate LegalRowsBefore(rows: seq<Json>, n: nat, i: nat)
    requires i <= |rows|
  {
    forall j :: 0 <= j < i ==> CheckRow(rows[j], n).Legal?
  }

  /** The verdict on the first row that is not legal. */
  function CheckRows(rows: seq<Json>, n: nat): (r: Validation)
    ensures r.Legal? <==> forall i :: 0 <= i < |rows| ==> CheckRow(rows[i], n).Legal?
    ensures !r.Legal? ==> exists i :: 0 <= i < |rows| && CheckRow(rows[i], n) == r && LegalRowsBefore(rows, n, i)
  {
    if rows == [] then Legal
    else if !CheckRow(rows[0], n).Legal? then
      assert LegalRowsBefore(rows, n, 0);
      CheckRow(rows[0], n)
    else
      var rest := CheckRows(rows[1..], n);
      assert forall i :: 1 <= i < |rows| ==> rows[i] == rows[1..][i - 1];
      assert forall i :: 0 <= i < |rows[1..]| && LegalRowsBefore(rows[1..], n, i) ==> LegalRowsBefore(rows, n, i + 1);
      rest
  }

  /** The first defect of a received grid in row order, if it has one. */
  function ValidateScentGrid(grid: Json, n: nat): Validation {
    if grid.Null? then Rejected(Missing)
    else if !grid.Arr? || |grid.items| != n then Rejected(BadDimensions)
    else CheckRows(grid.items, n)
  }

  /** Some cell holds an integer beyond the range of a double, and everything before it, in row
      order, is legal. */
  ghost predicate OverflowsAt(grid: Json, n: nat, r: nat, c: nat) {
    && grid.Arr? && |grid.items| == n && r < n && LegalRowsBefore(grid.items, n, r)
    && grid.items[r].Arr? && |grid.items[r].items| == n && c < n && LegalBefore(grid.items[r].items, c)
    && var v := grid.items[r].items[c];
       v.Int? && Abs(v.i) >= FLOAT_OVERFLOW
  }

  lemma FirstRowDecides(rows: seq<Json>, n: nat, i: nat)
    requires i < |rows| && LegalRowsBefore(rows, n, i) && !CheckRow(rows[i], n).Legal?
    ensures CheckRows(rows, n) == CheckRow(rows[i], n)
  {
    var j :| 0 <= j < |rows| && CheckRow(rows[j], n) == CheckRows(rows, n) && LegalRowsBefore(rows, n, j);
  }

  lemma FirstValueDecides(row: seq<Json>, c: nat)
    requires c < |row| && LegalBefore(row, c) && !CheckValue(row[c]).Legal?
    ensures CheckValues(row) == CheckValue(row[c])
  {
    var d :| 0 <= d < |row| && CheckValue(row[d]) == CheckValues(row) && LegalBefore(row, d);
  }

  lemma OverflowingValue(v: Json)
    ensures CheckValue(v).Overflow? <==> v.Int? && Abs(v.i) >= FLOAT_OVERFLOW
  {
    hide FLOAT_OVERFLOW;
  }

  /** Validation raises exactly on the grids whose first defect is such an integer, although its
      documentation says that it never raises. */
  lemma OverflowIsExact(grid: Json, n: nat)
    ensures ValidateScentGrid(grid, n).Overflow? <==> exists r: nat, c: nat :: OverflowsAt(grid, n, r, c)
  {
    hide CheckValue, FLOAT_OVERFLOW;
    if ValidateScentGrid(grid, n).Overflow? {
      var rows := grid.items;
      var r: nat :| r < |rows| && CheckRow(rows[r], n).Overflow? && LegalRowsBefore(rows, n, r);
      var row := rows[r].items;
      var c: nat :| c < |row| && CheckValue(row[c]).Overflow? && LegalBefore(row, c);
      OverflowingValue(row[c]);
      assert OverflowsAt(grid, n, r, c);
    }
    if r: nat, c: nat :| OverflowsAt(grid, n, r, c) {
      OverflowingValue(grid.items[r].items[c]);
      FirstValueDecides(grid.items[r].items, c);
      FirstRowDecides(grid.items, n, r);
    }
  }

  function Number(v: Json): real {
    match v
    case Int(i) => i as real
    case Num(r) => r
    case _ => 0.0
  }

  /** The rows of a valid grid as numbers. */
  function ToGrid(grid: Json, n: nat): (g: Grid)
    requires ValidateScentGrid(grid, n).Legal?
    ensures Square(n, g)
  {
    seq(n, r requires 0 <= r < n => seq(n, c requires 0 <= c < n =>
      assert CheckRow(grid.items[r], n).Legal?; Number(grid.items[r].items[c])))
  }

  /** Validation accepts exactly the square grids of numbers in [0, 9.45], and reads the value of
      each cell. */
  lemma ValidGridsAreBounded(grid: Json, n: nat)
    ensures ValidateScentGrid(grid, n).Legal? <==>
              && grid.Arr? && |grid.items| == n
              && forall r :: 0 <= r < n ==>
                   && grid.items[r].Arr? && |grid.items[r].items| == n
                   && forall c :: 0 <= c < n ==>
                        var v := grid.items[r].items[c];
                        (v.Int? || v.Num?) && 0.0 <= Number(v) <= 9.45
    ensures ValidateScentGrid(grid, n).Legal? ==>
              NonNegative(ToGrid(grid, n)) && forall r, c :: 0 <= r < n && 0 <= c < n ==>
                var v := grid.items[r].items[c];
                ToGrid(grid, n)[r][c] == if v.Int? then v.i as real else v.r
  {
    if grid.Arr? && |grid.items| == n {
      forall r | 0 <= r < n && grid.items[r].Arr? && |grid.items[r].items| == n
        ensures CheckRow(grid.items[r], n).Legal? <==> forall c :: 0 <= c < n ==>
                        var v := grid.items[r].items[c];
                        (v.Int? || v.Num?) && 0.0 <= Number(v) <= LEGAL_MAX_VALUE
      {
      }
    }
  }

  /** Every field a peer can ever emit passes its opponent's validation, and arrives unchanged. */
  lemma EmittedGridsAreAccepted(n: nat, path: seq<Position>)
    ensures ValidateScentGrid(NumberGrid(FieldAfter(n, path, DECAY)), n).Legal?
    ensures ToGrid(NumberGrid(FieldAfter(n, path, DECAY)), n) == FieldAfter(n, path, DECAY)
  {
    hide FieldAfter;
    var field := FieldAfter(n, path, DECAY);
    var sent := NumberGrid(field);
    forall r | 0 <= r < n ensures CheckRow(sent.items[r], n).Legal? {
      forall c | 0 <= c < n ensures CheckValue(sent.items[r].items[c]).Legal? {
        ScentBound(n, path, Position(r, c));
      }
    }
    forall r | 0 <= r < n ensures ToGrid(sent, n)[r] == field[r] {
    }
  }
}
