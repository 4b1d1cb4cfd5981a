/** One turn's belief update and the bounded look-ahead (services/belief_update.py and
    strategy/entropy_escape_utility.py). */
module BeliefUpdate {
  import opened Geometry
  import opened Grids
  import opened Belief
  import opened Options

  const TRUST_FLOOR := 0.05
  const TRUST_CEILING := 0.95

  /** Shannon entropy is kept abstract: any real-valued function of a belief. */
  type Entropy = BeliefMap -> real

  predicate TrustInRange(trust: real) {
    TRUST_FLOOR <= trust <= TRUST_CEILING
  }

  /** A hint that lowers the entropy earns trust, one that raises it loses trust. */
  function UpdateHintTrust(trust: real, before: real, after: real): (updated: real)
    ensures TrustInRange(trust) ==> TrustInRange(updated)
    ensures TrustInRange(trust) && after < before - 0.000000001 ==> updated >= trust
    ensures TrustInRange(trust) && after > before + 0.000000001 ==> updated <= trust
  {
    if after < before - 0.000000001 then Min(TRUST_CEILING, trust + 0.08 * (1.0 - trust))
    else if after > before + 0.000000001 then Max(TRUST_FLOOR, trust - 0.12 * trust)
    else trust
  }

  /** The trust after `k` hints in a row that all lowered, or all raised, the entropy. */
  function TrustAfter(trust: real, gain: bool, k: nat): real {
    if k == 0 then trust
    else if gain then UpdateHintTrust(TrustAfter(trust, gain, k - 1), 1.0, 0.0)
    else UpdateHintTrust(TrustAfter(trust, gain, k - 1), 0.0, 1.0)
  }

  function Decayed(x: real, factor: real, k: nat): real {
    if k == 0 then x else factor * Decayed(x, factor, k - 1)
  }

  /** The trust law: consistent hints shrink the distrust by the factor 0.92 each, up to the ceiling;
      inconsistent ones shrink the trust by the factor 0.88 each, down to the floor. */
  lemma {:induction false} TrustIsGeometric(trust: real, k: nat)
    requires TrustInRange(trust)
    ensures TrustAfter(trust, true, k) == Min(TRUST_CEILING, 1.0 - Decayed(1.0 - trust, 0.92, k))
    ensures TrustAfter(trust, false, k) == Max(TRUST_FLOOR, Decayed(trust, 0.88, k))
    ensures Decayed(1.0 - trust, 0.92, k) > 0.0 && Decayed(trust, 0.88, k) > 0.0
  {
    if k > 0 {
      TrustIsGeometric(trust, k - 1);
    }
  }

  function Predict(b: BeliefMap, board: Board): (p: BeliefMap)
    requires b.size >= 1
    ensures p.size == b.size
  {
    Transition(b, p => board.AdjacentCells(p))
  }

  function FoldScent(b: BeliefMap, scent: Option<Grid>): (m: BeliefMap)
    requires b.size >= 1
    ensures m.size == b.size
  {
    match scent
    case None => b
    case Some(grid) => ScentLikelihood(b, grid)
  }

  /** Everything up to the hint: diffusion, barrier mask, scent. */
  function BeforeHint(b: BeliefMap, board: Board, scent: Option<Grid>): (m: BeliefMap)
    requires b.size >= 1
    ensures m.size == b.size
  {
    FoldScent(BarrierMask(Predict(b, board), board.barriers), scent)
  }

  /** The frozen order: diffusion, barrier mask, scent likelihood, hint likelihood. */
  function UpdateBelief(b: BeliefMap, board: Board, scent: Option<Grid>, region: Option<set<Position>>,
                        trust: real, entropy: Entropy): (r: (BeliefMap, real))
    requires b.size >= 1
    ensures r.0.size == b.size
  {
    var masked := BeforeHint(b, board, scent);
    match region
    case None => (masked, trust)
    case Some(cells) =>
      var hinted := HintLikelihood(masked, cells, trust);
      (hinted, UpdateHintTrust(trust, entropy(masked), entropy(hinted)))
  }

  ghost predicate ScentAcceptable(scent: Option<Grid>, n: nat) {
    scent.Some? ==> Square(n, scent.value) && NonNegative(scent.value)
  }

  /** The mass the diffusion step leaves off the barriers. */
  function SurvivingMass(b: BeliefMap, board: Board): real
    requires b.size >= 1
  {
    OpenMass(Predict(b, board), board.barriers)
  }

  /** Same cells of zero and non-zero probability. */
  ghost predicate SameSupport(a: BeliefMap, b: BeliefMap) {
    a.size == b.size && forall q :: Within(a.size, q) ==> (At(a.grid, q) > 0.0 <==> At(b.grid, q) > 0.0)
  }

  lemma ScentKeepsSupport(b: BeliefMap, scent: Option<Grid>)
    requires b.Distribution() && ScentAcceptable(scent, b.size)
    ensures FoldScent(b, scent).Distribution() && SameSupport(b, FoldScent(b, scent))
  {
    hide Total;
    if scent.Some? {
      forall q | Within(b.size, q) ensures ScentWeight(scent.value, 1.0)(q) >= 1.0 {
        assert scent.value[q.row][q.col] >= 0.0;
      }
      WeightingKeepsSupport(b, ScentWeight(scent.value, 1.0));
    }
  }

  lemma HintKeepsSupport(b: BeliefMap, region: set<Position>, trust: real)
    requires b.Distribution() && trust >= 0.0
    ensures HintLikelihood(b, region, trust).Distribution() && SameSupport(b, HintLikelihood(b, region, trust))
  {
    hide Total;
    if region != {} {
      EffectiveTrustBounds(b, region, trust);
      WeightingKeepsSupport(b, HintWeight(region, EffectiveTrust(b, region, trust)));
    }
  }

  lemma PredictIsDistribution(b: BeliefMap, board: Board)
    requires b.Distribution() && board.size == b.size
    ensures Predict(b, board).Distribution()
  {
    AdjacencyStaysOnBoard(board);
    TransitionIsDiffusion(b, p => board.AdjacentCells(p));
  }

  /** One turn keeps the belief a distribution and the trust in its range; a barrier cell ends at
      probability zero exactly when the diffusion left more than the degenerate mass off the
      barriers; scent and hint never revive or clear a cell that the mask left. */
  lemma UpdateKeepsInvariant(b: BeliefMap, board: Board, scent: Option<Grid>, region: Option<set<Position>>,
                             trust: real, entropy: Entropy)
    requires b.Distribution() && board.size == b.size && ScentAcceptable(scent, b.size) && TrustInRange(trust)
    ensures var (after, updated) := UpdateBelief(b, board, scent, region, trust, entropy);
            && after.Distribution() && after.size == b.size && TrustInRange(updated)
            && SameSupport(BarrierMask(Predict(b, board), board.barriers), after)
    ensures forall q :: Within(b.size, q) && q in board.barriers ==>
              (At(UpdateBelief(b, board, scent, region, trust, entropy).0.grid, q) == 0.0
               <==> SurvivingMass(b, board) > DEGENERATE_MASS)
  {
    hide Total, RowSum, HintLikelihood, ScentLikelihood, Transition;
    var predicted := Predict(b, board);
    var masked := BarrierMask(predicted, board.barriers);
    PredictIsDistribution(b, board);
    MaskClearsBarriers(predicted, board.barriers);
    ScentKeepsSupport(masked, scent);
    var before := FoldScent(masked, scent);
    if region.Some? {
      HintKeepsSupport(before, region.value, trust);
    }
    var after := UpdateBelief(b, board, scent, region, trust, entropy).0;
    assert SameSupport(masked, after) && after.Distribution();
    forall q | Within(b.size, q) && q in board.barriers
      ensures At(after.grid, q) == 0.0 <==> SurvivingMass(b, board) > DEGENERATE_MASS
    {
      assert after.grid[q.row][q.col] >= 0.0 && masked.grid[q.row][q.col] >= 0.0;
    }
  }

  /** The condition is needed: when barriers cover the board the fallback revives every one of
      them, whatever the belief, scent and hint. */
  lemma FullyBarredBoardRevivesBarriers(b: BeliefMap, board: Board, scent: Option<Grid>,
                                        region: Option<set<Position>>, trust: real, entropy: Entropy, q: Position)
    requires b.Distribution() && board.size == b.size && ScentAcceptable(scent, b.size) && TrustInRange(trust)
    requires forall p :: Within(b.size, p) ==> p in board.barriers
    requires Within(b.size, q)
    ensures At(UpdateBelief(b, board, scent, region, trust, entropy).0.grid, q) > 0.0
  {
    hide Total, RowSum, HintLikelihood, ScentLikelihood, Transition;
    PredictIsDistribution(b, board);
    TotalConstant(b.size, MaskGrid(Predict(b, board).grid, b.size, board.barriers), 0.0);
    UpdateKeepsInvariant(b, board, scent, region, trust, entropy);
    var after := UpdateBelief(b, board, scent, region, trust, entropy).0;
    assert after.grid[q.row][q.col] >= 0.0;
  }

  // ----- Look-ahead -----

  function KeepOpen(board: Board, cells: seq<Position>): (kept: seq<Position>)
    ensures forall q :: q in kept <==> q in cells && q !in board.barriers
  {
    if cells == [] then []
    else
      var last := cells[|cells| - 1];
      KeepOpen(board, cells[..|cells| - 1]) + if last in board.barriers then [] else [last]
  }

  /** Stay or step to an open neighbour; a barrier cell has no successor. */
  function OpenMoves(board: Board): Neighbours {
    p => if p in board.barriers then [] else [p] + KeepOpen(board, board.AdjacentCells(p))
  }

  function Project(b: BeliefMap, board: Board, depth: int): (projected: BeliefMap)
    requires b.size >= 1
    ensures projected.size == b.size
    decreases if depth > 0 then depth else 0
  {
    if depth <= 0 then b else Transition(Project(b, board, depth - 1), OpenMoves(board))
  }

  /** The look-ahead loop. */
  method ProjectBelief(b: BeliefMap, board: Board, depth: int) returns (projected: BeliefMap)
    requires b.Shaped() && board.size == b.size
    ensures projected == Project(b, board, depth)
  {
    hide Transition, Total;
    OpenMovesStayOnBoard(board);
    projected := b;
    for k := 0 to if depth > 0 then depth else 0
      invariant projected == Project(b, board, k) && projected.Shaped()
    {
      projected := ApplyTransition(projected, OpenMoves(board));
    }
  }

  lemma OpenMovesStayOnBoard(board: Board)
    requires board.size >= 0
    ensures StaysOnBoard(board.size, OpenMoves(board))
  {
    forall s, i | Within(board.size, s) && 0 <= i < |OpenMoves(board)(s)|
      ensures Within(board.size, OpenMoves(board)(s)[i])
    {
      assert OpenMoves(board)(s)[i] in OpenMoves(board)(s);
    }
  }

  lemma {:induction false} NotListed(cells: seq<Position>, q: Position)
    requires q !in cells
    ensures Occurrences(cells, q) == 0
  {
    if cells != [] {
      NotListed(cells[..|cells| - 1], q);
    }
  }

  lemma ShareToBarrier(g: Grid, board: Board, s: Position, q: Position)
    requires q in board.barriers && At(g, s) >= 0.0
    ensures Share(g, OpenMoves(board), s, q) == if s == q then At(g, q) else 0.0
  {
    if s !in board.barriers {
      NotListed(OpenMoves(board)(s), q);
      var each := At(g, s) / |OpenMoves(board)(s)| as real;
      assert each * 0.0 == 0.0;
    }
  }

  /** A barrier cell receives its own mass and nothing from any other cell. */
  lemma {:induction false} BarrierInflow(g: Grid, board: Board, n: nat, r: nat, c: nat, q: Position)
    requires q in board.barriers && q.row >= 0 && 0 <= q.col < n
    requires Square(n, g) && NonNegative(g) && r <= n && c <= n && (r == n ==> c == 0)
    ensures Inflow(g, OpenMoves(board), n, r, c, q)
         == if q.row < r || (q.row == r && q.col < c) then At(g, q) else 0.0
    decreases r, c
  {
    hide Share;
    if c > 0 {
      BarrierInflow(g, board, n, r, c - 1, q);
      assert g[r][c - 1] >= 0.0;
      ShareToBarrier(g, board, Position(r, c - 1), q);
    } else if r > 0 {
      BarrierInflow(g, board, n, r - 1, n, q);
    }
  }

  /** Looking ahead to any depth keeps a distribution, and leaves the probability of every barrier
      cell exactly as it was. */
  lemma {:induction false} ProjectionConserves(b: BeliefMap, board: Board, depth: int)
    requires b.Distribution() && board.size == b.size
    ensures Project(b, board, depth).Distribution()
    ensures forall q :: Within(b.size, q) && q in board.barriers ==>
              At(Project(b, board, depth).grid, q) == At(b.grid, q)
    decreases if depth > 0 then depth else 0
  {
    hide Total, RowSum, Inflow, Share;
    if depth > 0 {
      var prior := Project(b, board, depth - 1);
      ProjectionConserves(b, board, depth - 1);
      OpenMovesStayOnBoard(board);
      TransitionIsDiffusion(prior, OpenMoves(board));
      forall q | Within(b.size, q) && q in board.barriers
        ensures At(Project(b, board, depth).grid, q) == At(b.grid, q)
      {
        BarrierInflow(prior.grid, board, b.size, b.size, 0, q);
      }
    }
  }
}
