/** What a whole belief update, and one step of the look-ahead, do to the probability of each cell
    (services/belief_update.py, domain/belief_updates.py, strategy/entropy_escape_utility.py). */
module BeliefLaws {
  import opened Geometry
  import opened Grids
  import opened Belief
  import opened BeliefUpdate
  import opened Options

  // ----- The inflow of a cell comes from the cell and its neighbours -----

  predicate Precedes(s: Position, r: nat, c: nat) {
    s.row < r || (s.row == r && s.col < c)
  }

  /** What `q` has received from `s` once the cells before (r, c) are served. */
  function Arrived(g: Grid, nf: Neighbours, n: nat, r: nat, c: nat, s: Position, q: Position): real {
    if Within(n, s) && Precedes(s, r, c) then Share(g, nf, s, q) else 0.0
  }

  ghost predicate OnlyNear(g: Grid, nf: Neighbours, q: Position) {
    forall s :: s != q && !Adjacent(q, s) ==> Share(g, nf, s, q) == 0.0
  }

  /** If only a cell and its neighbours hand mass to it, the sum over the board has five terms. */
  lemma {:induction false} InflowIsLocal(g: Grid, nf: Neighbours, n: nat, r: nat, c: nat, q: Position)
    requires OnlyNear(g, nf, q) && r <= n && c <= n && (r == n ==> c == 0)
    ensures Inflow(g, nf, n, r, c, q)
         == Arrived(g, nf, n, r, c, q, q)
            + Arrived(g, nf, n, r, c, Move(q, North), q) + Arrived(g, nf, n, r, c, Move(q, South), q)
            + Arrived(g, nf, n, r, c, Move(q, East), q) + Arrived(g, nf, n, r, c, Move(q, West), q)
    decreases r, c
  {
    hide Share;
    if c > 0 {
      hide Arrived;
      InflowIsLocal(g, nf, n, r, c - 1, q);
      ArrivedStep(g, nf, n, r, c, q, q);
      ArrivedStep(g, nf, n, r, c, Move(q, North), q);
      ArrivedStep(g, nf, n, r, c, Move(q, South), q);
      ArrivedStep(g, nf, n, r, c, Move(q, East), q);
      ArrivedStep(g, nf, n, r, c, Move(q, West), q);
    } else if r > 0 {
      InflowIsLocal(g, nf, n, r - 1, n, q);
    }
  }

  lemma ArrivedStep(g: Grid, nf: Neighbours, n: nat, r: nat, c: nat, s: Position, q: Position)
    requires r < n && 0 < c <= n
    ensures Arrived(g, nf, n, r, c, s, q)
         == Arrived(g, nf, n, r, c - 1, s, q) + if s == Position(r, c - 1) then Share(g, nf, s, q) else 0.0
  {
    hide Share;
  }

  lemma {:induction false} OccurrencesAppend(a: seq<Position>, b: seq<Position>, q: Position)
    ensures Occurrences(a + b, q) == Occurrences(a, q) + Occurrences(b, q)
  {
    if b == [] {
      assert a + b == a;
    } else {
      OccurrencesAppend(a, b[..|b| - 1], q);
      assert (a + b)[..|a + b| - 1] == a + b[..|b| - 1];
    }
  }

  /** The number of neighbours that lie on the board. */
  function Exits(n: nat, s: Position): (k: nat) {
    (if s.row > 0 then 1 else 0) + (if s.row < n - 1 then 1 else 0)
    + (if s.col > 0 then 1 else 0) + (if s.col < n - 1 then 1 else 0)
  }

  lemma AdjacencyCounts(board: Board, s: Position, q: Position)
    requires board.size >= 0 && board.InBounds(s) && board.InBounds(q)
    ensures |board.AdjacentCells(s)| == Exits(board.size, s)
    ensures Occurrences(board.AdjacentCells(s), q) == if Adjacent(q, s) then 1 else 0
  {
    hide Occurrences;
    var n, so, e, w := board.KeepInBounds(s, North), board.KeepInBounds(s, South), board.KeepInBounds(s, East),
                       board.KeepInBounds(s, West);
    OccurrencesAppend(n + so + e, w, q);
    OccurrencesAppend(n + so, e, q);
    OccurrencesAppend(n, so, q);
    KeptOnce(board, s, North, q);
    KeptOnce(board, s, South, q);
    KeptOnce(board, s, East, q);
    KeptOnce(board, s, West, q);
  }

  lemma KeptOnce(board: Board, s: Position, d: Direction, q: Position)
    requires board.InBounds(q)
    ensures Occurrences(board.KeepInBounds(s, d), q) == if q == Move(s, d) then 1 else 0
  {
  }

  // ----- The diffusion step -----

  /** The part of the mass on `s` that each of its neighbours receives. */
  function Handed(g: Grid, n: nat, s: Position): real {
    if Within(n, s) && Exits(n, s) > 0 then At(g, s) / Exits(n, s) as real else 0.0
  }

  /** The mass that reaches `q` in one step of the police: from each neighbour an equal share, and
      nothing from `q` itself, unless the board is a single cell. */
  function Received(g: Grid, n: nat, q: Position): real {
    if n == 1 then At(g, q)
    else Handed(g, n, Position(q.row - 1, q.col)) + Handed(g, n, Position(q.row + 1, q.col))
         + Handed(g, n, Position(q.row, q.col + 1)) + Handed(g, n, Position(q.row, q.col - 1))
  }

  lemma AdjacentShare(g: Grid, board: Board, s: Position, q: Position)
    requires board.size >= 0 && Square(board.size, g) && NonNegative(g) && board.InBounds(q)
    requires board.InBounds(s)
    ensures Share(g, p => board.AdjacentCells(p), s, q)
         == if Adjacent(q, s) then Handed(g, board.size, s)
            else if s == q && board.size == 1 then At(g, q) else 0.0
  {
    hide Occurrences, Share, Exits, Board.AdjacentCells, Adjacent;
    AdjacencyCounts(board, s, q);
    NoExits(board.size, s);
    assert g[s.row][s.col] >= 0.0;
    EqualShare(g, p => board.AdjacentCells(p), s, q);
    if board.size == 1 {
      OnlyCell(s, q);
    }
  }

  lemma NoExits(n: nat, s: Position)
    requires Within(n, s)
    ensures Exits(n, s) == 0 <==> n == 1
  {
  }

  lemma OnlyCell(s: Position, q: Position)
    requires Within(1, s) && Within(1, q)
    ensures s == q && !Adjacent(q, s)
  {
  }

  /** A source that lists each successor at most once hands each an equal part of its mass. */
  lemma EqualShare(g: Grid, nf: Neighbours, s: Position, q: Position)
    requires At(g, s) >= 0.0 && Occurrences(nf(s), q) <= 1
    ensures Share(g, nf, s, q)
         == if nf(s) == [] then (if q == s then At(g, s) else 0.0)
            else if Occurrences(nf(s), q) == 1 then At(g, s) / |nf(s)| as real else 0.0
  {
    hide Occurrences, Times;
    if nf(s) != [] {
      TimesOnce(At(g, s) / |nf(s)| as real);
    }
  }

  lemma TimesOnce(each: real)
    ensures Times(each, 0) == 0.0 && Times(each, 1) == each
  {
  }

  lemma NothingFromAfar(g: Grid, board: Board, q: Position)
    requires board.size >= 0 && Square(board.size, g) && NonNegative(g) && board.InBounds(q)
    ensures OnlyNear(g, p => board.AdjacentCells(p), q)
  {
    hide Share;
    forall s | s != q && !Adjacent(q, s) ensures Share(g, p => board.AdjacentCells(p), s, q) == 0.0 {
      if board.InBounds(s) {
        AdjacentShare(g, board, s, q);
      } else {
        NothingFromOutside(g, board.size, p => board.AdjacentCells(p), s, q);
      }
    }
  }

  lemma NothingFromOutside(g: Grid, n: nat, nf: Neighbours, s: Position, q: Position)
    requires Square(n, g) && !Within(n, s)
    ensures Share(g, nf, s, q) == 0.0
  {
  }

  lemma InflowIsReceived(g: Grid, board: Board, q: Position)
    requires board.size >= 0 && Square(board.size, g) && NonNegative(g) && board.InBounds(q)
    ensures Inflow(g, p => board.AdjacentCells(p), board.size, board.size, 0, q) == Received(g, board.size, q)
  {
    hide Share, Inflow, Exits;
    var n := board.size;
    NothingFromAfar(g, board, q);
    InflowIsLocal(g, p => board.AdjacentCells(p), n, n, 0, q);
    AdjacentShare(g, board, q, q);
    ArrivedFrom(g, board, Move(q, North), q);
    ArrivedFrom(g, board, Move(q, South), q);
    ArrivedFrom(g, board, Move(q, East), q);
    ArrivedFrom(g, board, Move(q, West), q);
  }

  lemma ArrivedFrom(g: Grid, board: Board, s: Position, q: Position)
    requires board.size >= 0 && Square(board.size, g) && NonNegative(g) && board.InBounds(q) && Adjacent(q, s)
    ensures Arrived(g, p => board.AdjacentCells(p), board.size, board.size, 0, s, q)
         == if board.size == 1 then 0.0 else Handed(g, board.size, s)
  {
    hide Share, Exits;
    if board.InBounds(s) {
      AdjacentShare(g, board, s, q);
    }
  }

  /** The diffusion step, cell by cell: each neighbour's mass is divided by the number of its own
      neighbours. */
  lemma PredictedCells(b: BeliefMap, board: Board, q: Position)
    requires b.Distribution() && board.size == b.size && Within(b.size, q)
    ensures At(Predict(b, board).grid, q) == Received(b.grid, b.size, q)
  {
    hide Inflow, Total;
    AdjacencyStaysOnBoard(board);
    TransitionIsDiffusion(b, p => board.AdjacentCells(p));
    InflowIsReceived(b.grid, board, q);
  }

  // ----- The whole update -----

  /** The mass that the diffusion leaves off the barriers. */
  function ReceivedOffBarriers(b: BeliefMap, board: Board): real {
    Total(Tabulate(b.size, q => if q in board.barriers then 0.0 else Received(b.grid, b.size, q)))
  }

  /** What the evidence of the turn finds on a cell, up to a common factor: nothing on a barrier and
      the received mass off it; the same amount everywhere once nearly all mass is on barriers. */
  function Prior(b: BeliefMap, board: Board, q: Position): real {
    if ReceivedOffBarriers(b, board) > 0.000000000001
    then (if q in board.barriers then 0.0 else Received(b.grid, b.size, q))
    else 1.0
  }

  function Smelled(scent: Option<Grid>, q: Position): real {
    if scent.Some? then At(scent.value, q) else 0.0
  }

  /** The prior times one plus the scent on the cell. */
  function Evidence(b: BeliefMap, board: Board, scent: Option<Grid>): Position -> real {
    q => (1.0 + Smelled(scent, q)) * Prior(b, board, q)
  }

  /** A belief with the cells of a hint, if there is one, weighted by one plus the trust in it. */
  function Reweighted(b: BeliefMap, region: Option<set<Position>>, e: real): Position -> real {
    q => (if region.Some? && q in region.value then 1.0 + e else 1.0) * At(b.grid, q)
  }

  ghost predicate InProportion(n: nat, g: Grid, weight: Position -> real, k: real) {
    k > 0.0 && forall q :: Within(n, q) ==> k * At(g, q) == weight(q)
  }

  /** The cells are the weights over one common positive divisor. */
  ghost predicate Proportional(n: nat, g: Grid, weight: Position -> real) {
    exists k: real :: InProportion(n, g, weight, k)
  }

  /** The mass on the cells of a region, in units of the uniform share of one cell. */
  function Held(b: BeliefMap, region: set<Position>): real {
    Total(Tabulate(b.size, q => if q in region then At(b.grid, q) else 0.0)) * (b.size * b.size) as real
  }

  lemma HeldIsCellsHeld(b: BeliefMap, region: set<Position>)
    ensures Held(b, region) == CellsHeld(b, region)
  {
    hide Total, At;
    var inside := Tabulate(b.size, q => if q in region then At(b.grid, q) else 0.0);
    forall r | 0 <= r < b.size ensures inside[r] == RegionGrid(b.grid, b.size, region)[r] {
    }
    assert inside == RegionGrid(b.grid, b.size, region);
  }

  /** The trust in a hint, scaled down when its region holds less than its uniform share of the
      belief `before`. */
  ghost predicate TrustPlaced(before: BeliefMap, region: Option<set<Position>>, trust: real, e: real) {
    region.Some? && region.value != {} ==>
      var cells, share := |region.value| as real, Held(before, region.value);
      e * cells == trust * if share >= cells then cells else share
  }

  /** Eight per cent of the distrust is lost when the entropy falls, twelve per cent of the trust when
      it rises, and a change of at most one in a thousand million counts for nothing. */
  ghost predicate TrustMoved(region: Option<set<Position>>, trust: real, before: real, after: real, updated: real) {
    if region.Some? && after < before - 0.000000001 then
      updated == if trust + 0.08 * (1.0 - trust) > 0.95 then 0.95 else trust + 0.08 * (1.0 - trust)
    else if region.Some? && after > before + 0.000000001 then
      updated == if trust - 0.12 * trust < 0.05 then 0.05 else trust - 0.12 * trust
    else updated == trust
  }

  lemma MaskedCells(b: BeliefMap, board: Board) returns (k: real)
    requires b.Distribution() && board.size == b.size
    ensures var masked := BarrierMask(Predict(b, board), board.barriers);
            masked.Distribution() && InProportion(b.size, masked.grid, q => Prior(b, board, q), k)
  {
    hide Total, Transition, Received;
    var p, n := Predict(b, board), b.size;
    var masked := BarrierMask(p, board.barriers);
    PredictIsDistribution(b, board);
    MaskClearsBarriers(p, board.barriers);
    OffBarriersAgree(b, board);
    if ReceivedOffBarriers(b, board) > 0.000000000001 {
      k := OpenMass(p, board.barriers);
      forall q | Within(n, q) ensures k * At(masked.grid, q) == Prior(b, board, q) {
        MaskRescales(p, board.barriers, q);
        PredictedCells(b, board, q);
      }
    } else {
      k := (n * n) as real;
      UniformCells(n, k);
    }
  }

  lemma UniformCells(n: nat, k: real)
    requires n >= 1 && k == (n * n) as real
    ensures k > 0.0 && forall q :: Within(n, q) ==> k * At(Uniform(n), q) == 1.0
  {
    assert k * (1.0 / k) == 1.0;
  }

  lemma OffBarriersAgree(b: BeliefMap, board: Board)
    requires b.Distribution() && board.size == b.size
    ensures ReceivedOffBarriers(b, board) == OpenMass(Predict(b, board), board.barriers)
  {
    hide Total, Transition, Received;
    var p, n := Predict(b, board), b.size;
    var open := Tabulate(n, q => if q in board.barriers then 0.0 else Received(b.grid, n, q));
    forall r | 0 <= r < n ensures open[r] == MaskGrid(p.grid, n, board.barriers)[r] {
      forall c | 0 <= c < n ensures open[r][c] == MaskGrid(p.grid, n, board.barriers)[r][c] {
        PredictedCells(b, board, Position(r, c));
      }
    }
    assert open == MaskGrid(p.grid, n, board.barriers);
  }

  lemma EvidenceCells(b: BeliefMap, board: Board, scent: Option<Grid>)
    requires b.Distribution() && board.size == b.size && ScentAcceptable(scent, b.size)
    ensures BeforeHint(b, board, scent).Distribution()
    ensures Proportional(b.size, BeforeHint(b, board, scent).grid, Evidence(b, board, scent))
  {
    hide Total, Transition, Prior, ScentLikelihood, BarrierMask;
    var k := MaskedCells(b, board);
    var masked := BarrierMask(Predict(b, board), board.barriers);
    var after := BeforeHint(b, board, scent);
    ScentKeepsSupport(masked, scent);
    if scent.None? {
      assert InProportion(b.size, after.grid, Evidence(b, board, scent), k);
    } else {
      var l := Total(WeightedGrid(masked.grid, b.size, ScentWeight(scent.value, 1.0)));
      ScentCells(masked, scent.value, Position(0, 0));
      forall q | Within(b.size, q)
        ensures l * At(after.grid, q) == (1.0 + At(scent.value, q)) * At(masked.grid, q)
      {
        ScentCells(masked, scent.value, q);
      }
      ScentedEvidence(b, board, scent, masked.grid, after.grid, k, l);
    }
  }

  lemma ScentedEvidence(b: BeliefMap, board: Board, scent: Option<Grid>, before: Grid, after: Grid, k: real, l: real)
    requires scent.Some? && l > 0.0 && b.size >= 1
    requires InProportion(b.size, before, q => Prior(b, board, q), k)
    requires forall q :: Within(b.size, q) ==> l * At(after, q) == (1.0 + At(scent.value, q)) * At(before, q)
    ensures Proportional(b.size, after, Evidence(b, board, scent))
  {
    hide Prior, At;
    forall q | Within(b.size, q) ensures (k * l) * At(after, q) == Evidence(b, board, scent)(q) {
      Chain(k, l, At(after, q), 1.0 + At(scent.value, q), At(before, q), Prior(b, board, q));
    }
    assert k * l > 0.0;
    assert InProportion(b.size, after, Evidence(b, board, scent), k * l);
  }

  lemma Chain(k: real, l: real, x: real, w: real, y: real, z: real)
    requires l * x == w * y && k * y == z
    ensures (k * l) * x == w * z
  {
    assert (k * l) * x == k * (l * x) == k * (w * y) == w * (k * y);
  }

  lemma HintedCells(before: BeliefMap, region: Option<set<Position>>, trust: real) returns (e: real)
    requires before.Distribution() && trust >= 0.0
    ensures TrustPlaced(before, region, trust, e)
    ensures var after := if region.Some? then HintLikelihood(before, region.value, trust) else before;
            Proportional(before.size, after.grid, Reweighted(before, region, e))
  {
    hide Total, Held, CellsHeld, EffectiveTrust, HintTotal, HintLikelihood, HintWeight, At, Reweighted;
    if region.None? || region.value == {} {
      e := 0.0;
      NotReweighted(before, region, e);
    } else {
      e := EffectiveTrust(before, region.value, trust);
      TrustIsCalibrated(before, region.value, trust);
      HeldIsCellsHeld(before, region.value);
      var after, k := HintLikelihood(before, region.value, trust), HintTotal(before, region.value, trust);
      HintCells(before, region.value, trust, Position(0, 0));
      forall q | Within(before.size, q) ensures k * At(after.grid, q) == Reweighted(before, region, e)(q) {
        HintCells(before, region.value, trust, q);
        WeightedCell(before, region, e, q);
      }
      assert InProportion(before.size, after.grid, Reweighted(before, region, e), k);
    }
  }

  lemma NotReweighted(before: BeliefMap, region: Option<set<Position>>, e: real)
    requires before.size >= 1 && (region.None? || region.value == {})
    ensures forall trust :: region.Some? ==> HintLikelihood(before, region.value, trust) == before
    ensures Proportional(before.size, before.grid, Reweighted(before, region, e))
  {
    assert InProportion(before.size, before.grid, Reweighted(before, region, e), 1.0);
  }

  lemma WeightedCell(before: BeliefMap, region: Option<set<Position>>, e: real, q: Position)
    requires region.Some?
    ensures HintWeight(region.value, e)(q) * At(before.grid, q) == Reweighted(before, region, e)(q)
  {
  }

  /** The law of one whole update. There is exactly one distribution `before` in proportion to the
      evidence: the mass received from the neighbouring cells, none on barriers, times one plus the
      scent. The new belief is in proportion to it, weighted by one plus the effective trust on the
      hinted cells; and the trust moves with the entropy of the new belief against that of `before`. */
  ghost predicate UpdateLaw(b: BeliefMap, board: Board, scent: Option<Grid>, region: Option<set<Position>>,
                            trust: real, entropy: Entropy, after: BeliefMap, updated: real,
                            before: BeliefMap, e: real) {
    && before.Distribution() && before.size == b.size
    && Proportional(b.size, before.grid, Evidence(b, board, scent))
    && after.Distribution() && after.size == b.size
    && Proportional(b.size, after.grid, Reweighted(before, region, e))
    && TrustPlaced(before, region, trust, e)
    && TrustMoved(region, trust, entropy(before), entropy(after), updated)
  }

  lemma UpdateObeysTheLaw(b: BeliefMap, board: Board, scent: Option<Grid>, region: Option<set<Position>>, trust: real,
                          entropy: Entropy)
    requires b.Distribution() && board.size == b.size && ScentAcceptable(scent, b.size) && TrustInRange(trust)
    ensures var (after, updated) := UpdateBelief(b, board, scent, region, trust, entropy);
            exists before, e :: UpdateLaw(b, board, scent, region, trust, entropy, after, updated, before, e)
  {
    hide Total, HintLikelihood, BeforeHint, Proportional, TrustPlaced;
    var before := BeforeHint(b, board, scent);
    EvidenceCells(b, board, scent);
    var e := HintedCells(before, region, trust);
    UpdateKeepsInvariant(b, board, scent, region, trust, entropy);
    var (after, updated) := UpdateBelief(b, board, scent, region, trust, entropy);
    assert UpdateLaw(b, board, scent, region, trust, entropy, after, updated, before, e);
  }

  /** A distribution is determined by what it is in proportion to. */
  lemma ProportionsDetermine(n: nat, g: Grid, h: Grid, weight: Position -> real)
    requires Square(n, g) && Square(n, h) && Total(g) == Total(h) == 1.0
    requires Proportional(n, g, weight) && Proportional(n, h, weight)
    ensures g == h
  {
    hide Total;
    var k :| InProportion(n, g, weight, k);
    var l :| InProportion(n, h, weight, l);
    var w := Tabulate(n, weight);
    WeightsTotal(n, g, w, weight, k);
    WeightsTotal(n, h, w, weight, l);
    forall r | 0 <= r < n ensures g[r] == h[r] {
      forall c | 0 <= c < n ensures g[r][c] == h[r][c] {
        assert k * At(g, Position(r, c)) == k * At(h, Position(r, c));
        Cancel(k, g[r][c], h[r][c]);
      }
    }
  }

  lemma WeightsTotal(n: nat, g: Grid, w: Grid, weight: Position -> real, k: real)
    requires Square(n, g) && Total(g) == 1.0 && InProportion(n, g, weight, k) && w == Tabulate(n, weight)
    ensures Total(w) == k
  {
    hide Total;
    forall r | 0 <= r < n ensures RowScaled(g[r], w[r], k) {
      forall c | 0 <= c < n ensures w[r][c] == k * g[r][c] {
        assert At(g, Position(r, c)) == g[r][c];
      }
    }
    TotalScale(g, w, k);
  }

  lemma Cancel(k: real, x: real, y: real)
    requires k != 0.0 && k * x == k * y
    ensures x == y
  {
  }

  /** The law determines the update, so it holds of the update and of nothing else. */
  lemma UpdateIsTheLaw(b: BeliefMap, board: Board, scent: Option<Grid>, region: Option<set<Position>>, trust: real,
                       entropy: Entropy, after: BeliefMap, updated: real)
    requires b.Distribution() && board.size == b.size && ScentAcceptable(scent, b.size) && TrustInRange(trust)
    ensures UpdateBelief(b, board, scent, region, trust, entropy) == (after, updated) <==>
              exists before, e :: UpdateLaw(b, board, scent, region, trust, entropy, after, updated, before, e)
  {
    hide Total, UpdateBelief, Proportional, TrustPlaced, TrustMoved, UpdateLaw;
    UpdateObeysTheLaw(b, board, scent, region, trust, entropy);
    var (a, u) := UpdateBelief(b, board, scent, region, trust, entropy);
    var before, e :| UpdateLaw(b, board, scent, region, trust, entropy, a, u, before, e);
    if other, f :| UpdateLaw(b, board, scent, region, trust, entropy, after, updated, other, f) {
      LawDetermines(b, board, scent, region, trust, entropy, a, u, before, e, after, updated, other, f);
    }
  }

  lemma LawDetermines(b: BeliefMap, board: Board, scent: Option<Grid>, region: Option<set<Position>>, trust: real,
                      entropy: Entropy, after: BeliefMap, updated: real, before: BeliefMap, e: real,
                      after': BeliefMap, updated': real, before': BeliefMap, e': real)
    requires UpdateLaw(b, board, scent, region, trust, entropy, after, updated, before, e)
    requires UpdateLaw(b, board, scent, region, trust, entropy, after', updated', before', e')
    ensures after == after' && updated == updated'
  {
    hide Total, Proportional, Held, Evidence, At;
    ProportionsDetermine(b.size, before.grid, before'.grid, Evidence(b, board, scent));
    assert before == before';
    SameWeights(before, region, trust, e, e');
    ProportionsDetermine(b.size, after.grid, after'.grid, Reweighted(before, region, e));
  }

  lemma SameWeights(before: BeliefMap, region: Option<set<Position>>, trust: real, e: real, f: real)
    requires TrustPlaced(before, region, trust, e) && TrustPlaced(before, region, trust, f)
    ensures forall n, g :: Proportional(n, g, Reweighted(before, region, f)) ==>
                             Proportional(n, g, Reweighted(before, region, e))
  {
    hide Held, At;
    if region.Some? && region.value != {} {
      Cancel(|region.value| as real, e, f);
    } else {
      forall n, g | Proportional(n, g, Reweighted(before, region, f))
        ensures Proportional(n, g, Reweighted(before, region, e))
      {
        var k :| InProportion(n, g, Reweighted(before, region, f), k);
        assert InProportion(n, g, Reweighted(before, region, e), k);
      }
    }
  }

  // ----- The look-ahead step -----

  /** The cells a peer on `s` can be on after one step: its own and the open neighbours. */
  function Choices(board: Board, s: Position): (k: nat)
    ensures k >= 1
  {
    1 + (if board.Open(Position(s.row - 1, s.col)) then 1 else 0)
    + (if board.Open(Position(s.row + 1, s.col)) then 1 else 0)
    + (if board.Open(Position(s.row, s.col + 1)) then 1 else 0)
    + (if board.Open(Position(s.row, s.col - 1)) then 1 else 0)
  }

  /** The equal part of the mass on an open cell that each choice receives. */
  function Part(g: Grid, board: Board, s: Position): real {
    if board.Open(s) then At(g, s) / Choices(board, s) as real else 0.0
  }

  /** The mass on an open cell after one step of the look-ahead. */
  function Gathered(g: Grid, board: Board, q: Position): real {
    Part(g, board, q)
    + Part(g, board, Position(q.row - 1, q.col)) + Part(g, board, Position(q.row + 1, q.col))
    + Part(g, board, Position(q.row, q.col + 1)) + Part(g, board, Position(q.row, q.col - 1))
  }

  lemma KeepOpenStep(board: Board, cells: seq<Position>, last: Position)
    ensures KeepOpen(board, cells + [last])
         == KeepOpen(board, cells) + if last in board.barriers then [] else [last]
  {
    assert (cells + [last])[..|cells|] == cells;
  }

  lemma {:induction false} KeepOpenAppend(board: Board, a: seq<Position>, b: seq<Position>)
    ensures KeepOpen(board, a + b) == KeepOpen(board, a) + KeepOpen(board, b)
  {
    if b == [] {
      assert a + b == a;
    } else {
      hide KeepOpen;
      var front, last := b[..|b| - 1], b[|b| - 1];
      assert b == front + [last] && a + b == (a + front) + [last];
      KeepOpenAppend(board, a, front);
      KeepOpenStep(board, front, last);
      KeepOpenStep(board, a + front, last);
      Regroup(KeepOpen(board, a), KeepOpen(board, front), if last in board.barriers then [] else [last]);
    }
  }

  lemma Regroup(a: seq<Position>, b: seq<Position>, c: seq<Position>)
    ensures (a + b) + c == a + (b + c)
  {
  }

  lemma {:induction false} OpenOccurrences(board: Board, cells: seq<Position>, q: Position)
    ensures Occurrences(KeepOpen(board, cells), q) == if q in board.barriers then 0 else Occurrences(cells, q)
  {
    if cells != [] {
      var n := |cells| - 1;
      OpenOccurrences(board, cells[..n], q);
      OccurrencesAppend(KeepOpen(board, cells[..n]), if cells[n] in board.barriers then [] else [cells[n]], q);
    }
  }

  lemma KeptOpen(board: Board, s: Position, d: Direction)
    ensures |KeepOpen(board, board.KeepInBounds(s, d))| == if board.Open(Move(s, d)) then 1 else 0
  {
  }

  lemma OpenNeighboursCount(board: Board, s: Position)
    ensures |KeepOpen(board, board.AdjacentCells(s))| + 1 == Choices(board, s)
  {
    hide KeepOpen;
    var n, so, e, w := board.KeepInBounds(s, North), board.KeepInBounds(s, South), board.KeepInBounds(s, East),
                       board.KeepInBounds(s, West);
    KeepOpenAppend(board, n + so + e, w);
    KeepOpenAppend(board, n + so, e);
    KeepOpenAppend(board, n, so);
    KeptOpen(board, s, North);
    KeptOpen(board, s, South);
    KeptOpen(board, s, East);
    KeptOpen(board, s, West);
  }

  lemma MovesCount(board: Board, s: Position, q: Position)
    requires board.Open(s) && board.Open(q)
    ensures |OpenMoves(board)(s)| == Choices(board, s)
    ensures Occurrences(OpenMoves(board)(s), q) == if q == s || Adjacent(q, s) then 1 else 0
  {
    hide Occurrences, KeepOpen, Board.AdjacentCells, Choices;
    OpenNeighboursCount(board, s);
    OpenOccurrences(board, board.AdjacentCells(s), q);
    AdjacencyCounts(board, s, q);
    OccurrencesAppend([s], KeepOpen(board, board.AdjacentCells(s)), q);
    OneOccurrence(s, q);
  }

  lemma OneOccurrence(s: Position, q: Position)
    ensures Occurrences([s], q) == if s == q then 1 else 0
  {
  }

  lemma OpenShare(g: Grid, board: Board, s: Position, q: Position)
    requires board.size >= 0 && Square(board.size, g) && NonNegative(g) && board.Open(q)
    ensures Share(g, OpenMoves(board), s, q) == if q == s || Adjacent(q, s) then Part(g, board, s) else 0.0
  {
    hide Occurrences, Share, OpenMoves, Choices;
    if !board.InBounds(s) {
      NothingFromOutside(g, board.size, OpenMoves(board), s, q);
    } else if s in board.barriers {
      assert g[s.row][s.col] >= 0.0;
      NoMoves(board, s, q);
      EqualShare(g, OpenMoves(board), s, q);
    } else {
      MovesCount(board, s, q);
      assert g[s.row][s.col] >= 0.0;
      EqualShare(g, OpenMoves(board), s, q);
    }
  }

  lemma NoMoves(board: Board, s: Position, q: Position)
    requires s in board.barriers
    ensures OpenMoves(board)(s) == [] && Occurrences(OpenMoves(board)(s), q) == 0
  {
  }

  lemma OpenArrived(g: Grid, board: Board, s: Position, q: Position)
    requires board.size >= 0 && Square(board.size, g) && NonNegative(g) && board.Open(q) && (s == q || Adjacent(q, s))
    ensures Arrived(g, OpenMoves(board), board.size, board.size, 0, s, q) == Part(g, board, s)
  {
    hide Share, OpenMoves, Choices;
    OpenShare(g, board, s, q);
  }

  /** One step of the look-ahead: an open cell receives an equal share of its own mass and of that
      of each open neighbour, where a peer may stay or step to any open neighbour. */
  lemma ProjectedCells(b: BeliefMap, board: Board, depth: nat, q: Position)
    requires b.Distribution() && board.size == b.size && board.Open(q)
    ensures At(Project(b, board, depth + 1).grid, q) == Gathered(Project(b, board, depth).grid, board, q)
  {
    hide Total, Inflow, Share, OpenMoves, Part;
    var prior := Project(b, board, depth);
    var n, g := b.size, prior.grid;
    ProjectionConserves(b, board, depth);
    OpenMovesStayOnBoard(board);
    TransitionIsDiffusion(prior, OpenMoves(board));
    forall s | s != q && !Adjacent(q, s) ensures Share(g, OpenMoves(board), s, q) == 0.0 {
      OpenShare(g, board, s, q);
    }
    InflowIsLocal(g, OpenMoves(board), n, n, 0, q);
    OpenArrived(g, board, q, q);
    OpenArrived(g, board, Move(q, North), q);
    OpenArrived(g, board, Move(q, South), q);
    OpenArrived(g, board, Move(q, East), q);
    OpenArrived(g, board, Move(q, West), q);
  }
}
