/** Whole sub-games: what every run of the turn loop seals, and how it ends. */
module SubGameRuns {
  import opened Options
  import opened Geometry
  import opened Grids
  import opened Belief
  import opened BeliefUpdate
  import opened BeliefLaws
  import opened Reveals
  import opened Scent
  import opened Json
  import opened Sealing
  import opened TurnEngine
  import opened TurnFacts
  import L = Lifecycle

  /** The barriers the opponent's first `k` reveals announced. */
  function BarriersBefore(inputs: Inputs, k: nat): set<Position> {
    if k == 0 then {}
    else
      var barrier := Shown(inputs(k - 1)).barrier;
      BarriersBefore(inputs, k - 1) + if barrier.Named? then {barrier.at} else {}
  }

  /** The cells sealed in the first `k` records. */
  function Path(records: seq<OwnRecord>, k: nat): seq<Position>
    requires k <= |records|
  {
    seq(k, i requires 0 <= i < k => records[i].turn.position)
  }

  /** Where the thief stands after the turn that sealed `t` and was answered by `opp`. */
  function Onward(t: TurnData, opp: OpponentTurn): Position {
    if Hits(t.position, opp) then t.position else Move(t.position, t.move)
  }

  /** The board as the thief knows it before turn `k`. */
  function BoardBefore(cfg: Config, inputs: Inputs, k: nat): Board {
    Board(cfg.gridSize, BarriersBefore(inputs, k))
  }

  /** Both deliveries of turn `i` succeeded, the record holds what the environment supplied, and its
      move is the pick among the directions that were legal on the board known then. */
  ghost predicate Supplied(cfg: Config, t: TurnData, inputs: Inputs, i: nat) {
    var input, legal := inputs(i), LegalDirections(t.position, BoardBefore(cfg, inputs, i));
    && BothDelivered(input)
    && t.intent == input.intent && t.hint == input.hint && t.timestamp == input.timestamp && t.nonce == input.nonce
    && t.move == legal[input.pick % |legal|]
  }

  /** Record `i` is what an honest run must seal: its own number, an intact commitment, the decayed
      emissions of its own trajectory, the cell its predecessor's move led to (unchanged after a
      hit), the honest answer to its predecessor's evidence, one turn late, and what the turn was
      supplied with. */
  ghost predicate LawfulRecord(cfg: Config, number: nat, records: seq<OwnRecord>, inputs: Inputs, i: nat)
    requires i < |records|
  {
    var t := records[i].turn;
    && t.step == i && t.subGame == number && t.config == cfg.configHash
    && Supplied(cfg, t, inputs, i)
    && records[i].commitHash == CommitHash(PayloadOf(t))
    && Within(cfg.gridSize, t.position)
    && t.scent == FieldAfter(cfg.gridSize, Path(records, i + 1), DECAY)
    && (i == 0 ==> t.position == cfg.start && t.claimResponse == None)
    && (i > 0 ==> t.position == Onward(records[i - 1].turn, Shown(inputs(i - 1))))
    && (i > 0 ==> t.claimResponse == HonestAnswer(records[i - 1].turn.position, Shown(inputs(i - 1))))
    && (t.position in BarriersBefore(inputs, i) ==> t.claimResponse == Some(true))
  }

  ghost predicate Lawful(cfg: Config, number: nat, records: seq<OwnRecord>, inputs: Inputs) {
    forall i :: 0 <= i < |records| ==> LawfulRecord(cfg, number, records, inputs, i)
  }

  /** The scent and the hint cells known before turn `k`: those of the reveal just before it. */
  function ScentBefore(cfg: Config, inputs: Inputs, k: nat): Option<Grid> {
    if k == 0 then None
    else
      var grid := Shown(inputs(k - 1)).scentGrid;
      if ValidateScentGrid(grid, cfg.gridSize).Legal? then Some(ToGrid(grid, cfg.gridSize)) else None
  }

  function HintBefore(cfg: Config, inputs: Inputs, k: nat): Option<set<Position>> {
    if k == 0 then None else HintCellsOf(Shown(inputs(k - 1)).hint, cfg.gridSize)
  }

  /** The belief and the trust after the updates of the first `k` turns. */
  function BeliefAfter(cfg: Config, inputs: Inputs, k: nat): (r: (BeliefMap, real))
    requires cfg.gridSize >= 1
    ensures r.0.size == cfg.gridSize
  {
    if k == 0 then (UniformPrior(cfg.gridSize), 0.5)
    else
      var (belief, trust) := BeliefAfter(cfg, inputs, k - 1);
      UpdateBelief(belief, BoardBefore(cfg, inputs, k - 1), ScentBefore(cfg, inputs, k - 1),
                   HintBefore(cfg, inputs, k - 1), trust, cfg.entropy)
  }

  /** What the thief believes follows from the reveals alone. */
  ghost predicate BeliefInSync(cfg: Config, s: SubGame, inputs: Inputs) {
    && cfg.gridSize >= 1
    && (s.belief, s.trust) == BeliefAfter(cfg, inputs, s.step)
    && s.policeScent == ScentBefore(cfg, inputs, s.step) && s.hintRegion == HintBefore(cfg, inputs, s.step)
  }

  /** The cells the thief has been on. */
  ghost predicate VisitedInSync(cfg: Config, s: SubGame) {
    forall q :: q in s.visited <==>
      q == s.position || exists i :: 0 <= i < |s.records| && s.records[i].turn.position == q
  }

  /** The state between turns agrees with its own history. */
  ghost predicate InSync(cfg: Config, s: SubGame, inputs: Inputs) {
    && Ready(cfg, s)
    && Lawful(cfg, s.number, s.records, inputs)
    && s.board == BoardBefore(cfg, inputs, s.step) && BeliefInSync(cfg, s, inputs) && VisitedInSync(cfg, s)
    && s.ownScent == FieldAfter(cfg.gridSize, Path(s.records, s.step), DECAY)
    && (s.position in s.board.barriers ==> s.pending == Some(true))
    && (s.step == 0 ==> s.position == cfg.start && s.pending == None)
    && (s.step > 0 ==> var last, opp := s.records[s.step - 1].turn, Shown(inputs(s.step - 1));
                       s.position == Onward(last, opp) && s.pending == HonestAnswer(last.position, opp))
  }

  lemma InitialIsSane(cfg: Config, number: nat, m: L.Machine)
    requires cfg.Valid()
    ensures Sane(cfg, InitialState(cfg, number, m))
  {
    hide Total;
    NormalizeIsDistribution(cfg.gridSize, Tabulate(cfg.gridSize, q => 1.0));
  }

  lemma InitialFields(cfg: Config, number: nat, m: L.Machine)
    requires cfg.Valid()
    ensures var s := InitialState(cfg, number, m);
            && s.number == number && s.position == cfg.start && s.machine == m && s.records == [] && s.step == 0
            && s.board == Board(cfg.gridSize, {}) && s.pending == None && s.ownScent == Empty(cfg.gridSize)
            && s.belief == UniformPrior(cfg.gridSize) && s.trust == 0.5 && s.visited == {cfg.start}
            && s.policeScent == None && s.hintRegion == None && Synced(s.exchange, 0)
  {
    hide UniformPrior;
  }

  /** The first belief gives every cell the same probability. */
  lemma FirstBeliefIsUniform(n: nat, q: Position)
    requires n >= 1 && Within(n, q)
    ensures UniformPrior(n).Distribution() && At(UniformPrior(n).grid, q) * (n * n) as real == 1.0
  {
    hide Total;
    var ones := Tabulate(n, p => 1.0);
    TotalConstant(n, ones, 1.0);
    assert n as real * (n as real * 1.0) == (n * n) as real;
    assert n * n >= 1;
    NormalizeRescales(n, ones);
    Divide(1.0, (n * n) as real);
  }

  lemma InitialIsInSync(cfg: Config, number: nat, m: L.Machine, inputs: Inputs)
    requires cfg.Valid() && m.state.Waiting? && L.Clean(m) && L.Explained(L.Initializing, m)
    ensures InSync(cfg, InitialState(cfg, number, m), inputs)
  {
    hide L.Clean, L.Explained, Sane, InitialState, Synced, LawfulRecord;
    InitialIsSane(cfg, number, m);
    InitialFields(cfg, number, m);
  }

  lemma LawfulExtends(cfg: Config, number: nat, records: seq<OwnRecord>, rec: OwnRecord, inputs: Inputs)
    requires Lawful(cfg, number, records, inputs)
    requires LawfulRecord(cfg, number, records + [rec], inputs, |records|)
    ensures Lawful(cfg, number, records + [rec], inputs)
  {
    hide FieldAfter, PayloadOf, CommitHash;
    forall i | 0 <= i < |records| ensures LawfulRecord(cfg, number, records + [rec], inputs, i) {
      assert LawfulRecord(cfg, number, records, inputs, i);
      assert Path(records + [rec], i + 1) == Path(records, i + 1);
    }
  }

  /** The record sealed from a synchronised state is lawful. */
  lemma NewRecordIsLawful(cfg: Config, s: SubGame, inputs: Inputs)
    requires InSync(cfg, s, inputs) && BothDelivered(inputs(s.step))
    ensures Lawful(cfg, s.number, s.records + [RecordOf(cfg, s, inputs(s.step))], inputs)
  {
    hide Ready, PayloadOf, CommitHash, ApplyTurn, Lawful, LegalDirections, BeliefInSync, VisitedInSync;
    var rec := RecordOf(cfg, s, inputs(s.step));
    var records := s.records + [rec];
    ReadyBasics(cfg, s);
    var path := Path(records, s.step + 1);
    assert path[..s.step] == Path(s.records, s.step);
    LawfulExtends(cfg, s.number, s.records, rec, inputs);
  }

  lemma ReadyBasics(cfg: Config, s: SubGame)
    requires Ready(cfg, s)
    ensures |s.records| == s.step && Within(cfg.gridSize, s.position)
  {
  }

  lemma ContinuedTurn(cfg: Config, s: SubGame, input: TurnInput, t: SubGame)
    requires ResolvedBy(cfg, s, input, t, Continue)
    ensures WentOn(cfg, s, input, t) && !Blocks(s.position, RecordOf(cfg, s, input).turn.move, Shown(input))
    ensures t.number == s.number && t.step == s.step + 1
  {
    hide RecordOf, Shown, Ready, Sense, PublicEvidence, ValidateScentGrid, Hits;
  }

  lemma TurnKeepsInSync(cfg: Config, s: SubGame, inputs: Inputs)
    requires InSync(cfg, s, inputs)
    ensures var (t, r) := Turn(cfg, s, inputs(s.step));
            && Lawful(cfg, s.number, t.records, inputs)
            && (r == Continue ==> InSync(cfg, t, inputs) && t.number == s.number && t.step == s.step + 1)
  {
    hide Turn, Ready, FieldAfter, PayloadOf, CommitHash, RecordOf, Lawful, ResolvedBy, WentOn, Traced, Blocks;
    var (t, r) := Turn(cfg, s, inputs(s.step));
    TurnCases(cfg, s, inputs(s.step));
    if BothDelivered(inputs(s.step)) {
      NewRecordIsLawful(cfg, s, inputs);
    }
    if r == Continue {
      ContinuedTurn(cfg, s, inputs(s.step), t);
      ContinueKeepsInSync(cfg, s, inputs, t);
    }
  }

  /** The new cell is off every known barrier unless the thief was just hit. */
  lemma NewCellIsOpen(s: SubGame, input: TurnInput, opp: OpponentTurn)
    requires s.position in s.board.barriers ==> s.pending == Some(true)
    requires s.pending != Some(true) && !Hits(s.position, opp) && !Blocks(s.position, Choice(s, input), opp)
    ensures Move(s.position, Choice(s, input))
            !in BoardAfter(s.board, opp.barrier).barriers
  {
    assert Choice(s, input) in LegalDirections(s.position, s.board);
  }

  lemma ContinueKeepsBelief(cfg: Config, s: SubGame, inputs: Inputs, t: SubGame)
    requires BeliefInSync(cfg, s, inputs) && s.board == BoardBefore(cfg, inputs, s.step)
    requires WentOn(cfg, s, inputs(s.step), t)
    ensures BeliefInSync(cfg, t, inputs)
  {
    hide Ready, UpdateBelief, ToGrid, ValidateScentGrid, HintCellsOf, RecordOf, Shown, HonestAnswer, UniformPrior;
  }

  lemma ContinueKeepsVisited(cfg: Config, s: SubGame, input: TurnInput, t: SubGame)
    requires VisitedInSync(cfg, s) && WentOn(cfg, s, input, t)
    ensures VisitedInSync(cfg, t)
  {
    hide Ready, Sense, PublicEvidence, HonestAnswer, Shown;
    var rec := RecordOf(cfg, s, input);
    assert rec.turn.position == s.position;
    assert t.records[|s.records|] == rec;
    assert forall i :: 0 <= i < |s.records| ==> t.records[i] == s.records[i];
  }

  lemma ContinueKeepsInSync(cfg: Config, s: SubGame, inputs: Inputs, t: SubGame)
    requires InSync(cfg, s, inputs) && WentOn(cfg, s, inputs(s.step), t) && s.pending != Some(true)
    requires !Blocks(s.position, RecordOf(cfg, s, inputs(s.step)).turn.move, Shown(inputs(s.step)))
    requires Lawful(cfg, s.number, t.records, inputs)
    ensures InSync(cfg, t, inputs)
  {
    hide Ready, FieldAfter, PayloadOf, CommitHash, Lawful, LawfulRecord, Choice, ApplyTurn, Sense, Move, BeliefInSync,
      VisitedInSync;
    ContinueKeepsBelief(cfg, s, inputs, t);
    ContinueKeepsVisited(cfg, s, inputs(s.step), t);
    ReadyBasics(cfg, s);
    ReadyBasics(cfg, t);
    var input := inputs(s.step);
    if !Hits(s.position, Shown(input)) {
      NewCellIsOpen(s, input, Shown(input));
    }
    LastIsLawful(cfg, s.number, t.records, inputs);
    LawfulScent(cfg, s.number, t.records, inputs, s.step);
  }

  lemma LastIsLawful(cfg: Config, number: nat, records: seq<OwnRecord>, inputs: Inputs)
    requires Lawful(cfg, number, records, inputs) && records != []
    ensures LawfulRecord(cfg, number, records, inputs, |records| - 1)
  {
  }

  lemma LawfulScent(cfg: Config, number: nat, records: seq<OwnRecord>, inputs: Inputs, i: nat)
    requires i < |records| && LawfulRecord(cfg, number, records, inputs, i)
    ensures records[i].turn.scent == FieldAfter(cfg.gridSize, Path(records, i + 1), DECAY)
  {
  }

  /** The lifecycle state in which each way out of the turn loop leaves the machine. */
  function ExitState(r: TurnResult): L.PeerState {
    match r
    case Continue => L.Waiting
    case Ended(TechnicalLoss) => L.Error
    case Ended(_) => L.SubGameOver
    case Raised(CancelledTask) => L.WaitingForAck
    case Raised(_) => L.Verifying
  }

  /** Over any run of the loop, whatever the deliveries and reveals: every record is lawful, no
      lifecycle event and no exchange step is ever rejected, every exit leaves the machine in the
      state that belongs to it, and only a cancellation, a barrier on the chosen cell, or evidence
      that cannot be read escapes. */
  lemma {:induction false} RunsAreLawful(cfg: Config, s: SubGame, inputs: Inputs, cap: int)
    requires InSync(cfg, s, inputs)
    ensures var (t, r) := RunTurns(cfg, s, inputs, s.step, cap);
            && Lawful(cfg, s.number, t.records, inputs)
            && Traced(t, ExitState(r))
            && (r.Raised? ==> FromOutside(r.cause))
    decreases cap - s.step
  {
    hide Turn, Lawful, Traced, ExitState, InSync;
    SyncedBasics(cfg, s, inputs);
    if s.step < cap {
      TurnKeepsInSync(cfg, s, inputs);
      TurnExits(cfg, s, inputs);
      var (t, r) := Turn(cfg, s, inputs(s.step));
      if r.Continue? {
        RunsAreLawful(cfg, t, inputs, cap);
      }
    }
  }

  /** A run never seals more records than its cap allows turns. */
  lemma {:induction false} RecordsWithinCap(cfg: Config, s: SubGame, inputs: Inputs, cap: nat)
    requires InSync(cfg, s, inputs) && s.step <= cap
    ensures |RunTurns(cfg, s, inputs, s.step, cap).0.records| <= cap
    decreases cap - s.step
  {
    hide Turn, Lawful, Traced, ExitState, InSync, RecordOf;
    SyncedBasics(cfg, s, inputs);
    if s.step < cap {
      TurnKeepsInSync(cfg, s, inputs);
      TurnAddsAtMostOne(cfg, s, inputs);
      var (t, r) := Turn(cfg, s, inputs(s.step));
      if r.Continue? {
        RecordsWithinCap(cfg, t, inputs, cap);
      }
    }
  }

  /** A run that uses up its cap seals a record in every turn. */
  lemma {:induction false} ContinuedRun(cfg: Config, s: SubGame, inputs: Inputs, cap: nat)
    requires InSync(cfg, s, inputs) && s.step <= cap && RunTurns(cfg, s, inputs, s.step, cap).1.Continue?
    ensures |RunTurns(cfg, s, inputs, s.step, cap).0.records| == cap
    decreases cap - s.step
  {
    hide Turn, Lawful, Traced, ExitState, InSync, RecordOf;
    SyncedBasics(cfg, s, inputs);
    if s.step < cap {
      TurnKeepsInSync(cfg, s, inputs);
      ContinuedRun(cfg, Turn(cfg, s, inputs(s.step)).0, inputs, cap);
    }
  }

  lemma TurnAddsAtMostOne(cfg: Config, s: SubGame, inputs: Inputs)
    requires InSync(cfg, s, inputs)
    ensures |Turn(cfg, s, inputs(s.step)).0.records| <= |s.records| + 1
  {
    hide Turn, Ready, WentOn, RecordOf, Traced;
    SyncedIsReady(cfg, s, inputs);
    TurnCases(cfg, s, inputs(s.step));
  }

  lemma SyncedBasics(cfg: Config, s: SubGame, inputs: Inputs)
    requires InSync(cfg, s, inputs)
    ensures Lawful(cfg, s.number, s.records, inputs) && Traced(s, ExitState(Continue)) && |s.records| == s.step
  {
    ReadyIsTraced(cfg, s);
  }

  lemma TurnExits(cfg: Config, s: SubGame, inputs: Inputs)
    requires InSync(cfg, s, inputs)
    ensures var (t, r) := Turn(cfg, s, inputs(s.step));
            && (!r.Continue? ==> Traced(t, ExitState(r)))
            && (r.Raised? ==> FromOutside(r.cause))
  {
    hide Turn, Ready, WentOn, RecordOf, Traced, InSync;
    SyncedIsReady(cfg, s, inputs);
    TurnCases(cfg, s, inputs(s.step));
  }

  lemma ReadyIsTraced(cfg: Config, s: SubGame)
    requires Ready(cfg, s)
    ensures Traced(s, L.Waiting)
  {
  }

  // ----- How a sub-game ends -----

  /** What turn `i` met. */
  function Met(cfg: Config, records: seq<OwnRecord>, inputs: Inputs, i: nat): Encounter
    requires i < |records|
  {
    Faced(cfg, records[i].turn, Shown(inputs(i)))
  }

  function Faced(cfg: Config, t: TurnData, opp: OpponentTurn): Encounter {
    EncounterOf(cfg.gridSize, t.position, t.move, opp)
  }

  ghost predicate QuietUpTo(cfg: Config, records: seq<OwnRecord>, inputs: Inputs, k: nat)
    requires k <= |records|
  {
    forall i :: 0 <= i < k ==> Met(cfg, records, inputs, i).Quiet?
  }

  ghost predicate AllDelivered(inputs: Inputs, turns: nat) {
    forall i :: 0 <= i < turns ==> BothDelivered(inputs(i))
  }

  /** Nothing before the last record, and what the last one met. */
  ghost predicate StoppedAt(cfg: Config, inputs: Inputs, records: seq<OwnRecord>, met: Encounter) {
    var n := |records|;
    1 <= n <= cfg.threshold && QuietUpTo(cfg, records, inputs, n - 1) && Met(cfg, records, inputs, n - 1) == met
  }

  /** The shape of a run in which every delivery succeeds: the first encounter decides. */
  ghost predicate Decided(cfg: Config, inputs: Inputs, records: seq<OwnRecord>, r: TurnResult) {
    var n := |records|;
    match r
    case Ended(Capture) =>
      n >= 2 && n - 2 < cfg.threshold && QuietUpTo(cfg, records, inputs, n - 2) && Met(cfg, records, inputs, n - 2).Hit?
    case Ended(Survival) => n == cfg.threshold && QuietUpTo(cfg, records, inputs, n)
    case Ended(TechnicalLoss) => StoppedAt(cfg, inputs, records, Keyless)
    case Raised(IllegalAction) => StoppedAt(cfg, inputs, records, Blocked)
    case Raised(MalformedEvidence) => StoppedAt(cfg, inputs, records, Garbled)
    case _ => false
  }

  /** One delivered turn before any hit, by what it meets. */
  ghost predicate DeliveredStep(cfg: Config, s: SubGame, inputs: Inputs, t: SubGame, r: TurnResult) {
    var rec, opp := RecordOf(cfg, s, inputs(s.step)), Shown(inputs(s.step));
    && t.records == s.records + [rec]
    && match Faced(cfg, rec.turn, opp)
       case Hit => r == Continue && InSync(cfg, t, inputs) && t.step == s.step + 1 && t.pending == Some(true)
       case Blocked => r == Raised(Cause.IllegalAction)
       case Keyless => r == Ended(TechnicalLoss)
       case Garbled => r == Raised(MalformedEvidence)
       case Quiet =>
         if s.step + 1 >= cfg.threshold then r == Ended(Survival)
         else r == Continue && InSync(cfg, t, inputs) && t.step == s.step + 1 && t.pending != Some(true)
  }

  lemma DeliveredTurn(cfg: Config, s: SubGame, inputs: Inputs)
    requires InSync(cfg, s, inputs) && BothDelivered(inputs(s.step)) && s.pending != Some(true)
    ensures DeliveredStep(cfg, s, inputs, Turn(cfg, s, inputs(s.step)).0, Turn(cfg, s, inputs(s.step)).1)
  {
    hide Turn, Ready, RecordOf, InSync, Traced, EncounterOf, WentOn, Shown;
    SyncedIsReady(cfg, s, inputs);
    TurnCases(cfg, s, inputs(s.step));
    TurnKeepsInSync(cfg, s, inputs);
    RecordKeepsCell(cfg, s, inputs(s.step));
    var (t, r) := Turn(cfg, s, inputs(s.step));
    if r.Continue? {
      ContinuedPending(cfg, s, inputs(s.step), t);
    }
  }

  /** After a turn that goes on, a confirmation is pending exactly when it was a hit. */
  lemma ContinuedPending(cfg: Config, s: SubGame, input: TurnInput, t: SubGame)
    requires ResolvedBy(cfg, s, input, t, Continue)
    ensures t.pending == Some(true) <==>
              EncounterOf(cfg.gridSize, s.position, RecordOf(cfg, s, input).turn.move, Shown(input)).Hit?
  {
    hide RecordOf, Shown, Ready, Sense, PublicEvidence, ValidateScentGrid;
  }

  lemma SyncedIsReady(cfg: Config, s: SubGame, inputs: Inputs)
    requires InSync(cfg, s, inputs)
    ensures Ready(cfg, s)
  {
  }

  /** Adding the record of turn `s.step` keeps what earlier turns met. */
  lemma MetExtends(cfg: Config, records: seq<OwnRecord>, rec: OwnRecord, inputs: Inputs)
    ensures Met(cfg, records + [rec], inputs, |records|) == Faced(cfg, rec.turn, Shown(inputs(|records|)))
    ensures forall k :: 0 <= k <= |records| ==>
              (QuietUpTo(cfg, records + [rec], inputs, k) <==> QuietUpTo(cfg, records, inputs, k))
    ensures QuietUpTo(cfg, records + [rec], inputs, |records| + 1) <==>
            QuietUpTo(cfg, records, inputs, |records|) && Faced(cfg, rec.turn, Shown(inputs(|records|))).Quiet?
  {
    hide Faced;
    assert forall i :: 0 <= i < |records| ==> Met(cfg, records + [rec], inputs, i) == Met(cfg, records, inputs, i);
  }

  /** A delivered turn that stops the loop decides it. */
  lemma StopDecides(cfg: Config, s: SubGame, inputs: Inputs, t: SubGame, r: TurnResult)
    requires DeliveredStep(cfg, s, inputs, t, r) && !r.Continue?
    requires s.step == |s.records| < cfg.threshold && QuietUpTo(cfg, s.records, inputs, s.step)
    ensures Decided(cfg, inputs, t.records, r)
  {
    hide InSync, Faced, Met, QuietUpTo, RecordOf;
    MetExtends(cfg, s.records, RecordOf(cfg, s, inputs(s.step)), inputs);
  }

  /** A hit, then the confirming turn. */
  lemma HitDecides(cfg: Config, s: SubGame, inputs: Inputs, t: SubGame)
    requires DeliveredStep(cfg, s, inputs, t, Continue) && t.pending == Some(true)
    requires AllDelivered(inputs, cfg.threshold + 1)
    requires s.step == |s.records| < cfg.threshold && QuietUpTo(cfg, s.records, inputs, s.step)
    ensures var (u, r) := RunTurns(cfg, t, inputs, t.step, cfg.threshold + 1);
            Decided(cfg, inputs, u.records, r)
  {
    hide InSync, Faced, QuietUpTo, RecordOf, RunTurns, AllDelivered, Lawful, Traced, Decided;
    SyncedBasics(cfg, t, inputs);
    ConfirmingTurn(cfg, t, inputs);
    HitShape(cfg, inputs, s.records, RecordOf(cfg, s, inputs(s.step)), RecordOf(cfg, t, inputs(t.step)));
  }

  /** Quiet records, one that is hit, and the confirming one. */
  lemma HitShape(cfg: Config, inputs: Inputs, records: seq<OwnRecord>, hit: OwnRecord, last: OwnRecord)
    requires |records| < cfg.threshold && QuietUpTo(cfg, records, inputs, |records|)
    requires Faced(cfg, hit.turn, Shown(inputs(|records|))).Hit?
    ensures Decided(cfg, inputs, records + [hit] + [last], Ended(Capture))
  {
    hide Faced, Met, QuietUpTo, Shown;
    MetExtends(cfg, records, hit, inputs);
    MetExtends(cfg, records + [hit], last, inputs);
    MetPrefix(cfg, records + [hit], records + [hit] + [last], inputs, |records|);
  }

  lemma {:induction false} DeliveredRunsAreDecided(cfg: Config, s: SubGame, inputs: Inputs)
    requires InSync(cfg, s, inputs) && AllDelivered(inputs, cfg.threshold + 1)
    requires s.step == |s.records| < cfg.threshold && s.pending != Some(true)
    requires QuietUpTo(cfg, s.records, inputs, s.step)
    ensures var (t, r) := RunTurns(cfg, s, inputs, s.step, cfg.threshold + 1);
            Decided(cfg, inputs, t.records, r)
    decreases cfg.threshold - s.step
  {
    hide Turn, RecordOf, InSync, Faced, Met, QuietUpTo, Decided;
    assert BothDelivered(inputs(s.step));
    DeliveredTurn(cfg, s, inputs);
    var (t, r) := Turn(cfg, s, inputs(s.step));
    if !r.Continue? {
      StopDecides(cfg, s, inputs, t, r);
    } else if t.pending == Some(true) {
      HitDecides(cfg, s, inputs, t);
    } else {
      SyncedBasics(cfg, t, inputs);
      MetExtends(cfg, s.records, RecordOf(cfg, s, inputs(s.step)), inputs);
      DeliveredRunsAreDecided(cfg, t, inputs);
    }
  }

  lemma MetPrefix(cfg: Config, records: seq<OwnRecord>, more: seq<OwnRecord>, inputs: Inputs, i: nat)
    requires i < |records| <= |more| && records <= more
    ensures Met(cfg, more, inputs, i) == Met(cfg, records, inputs, i)
  {
  }

  lemma RecordKeepsCell(cfg: Config, s: SubGame, input: TurnInput)
    ensures RecordOf(cfg, s, input).turn.position == s.position
  {
  }

  /** The turn after a hit only delivers the confirmation and closes the game. */
  lemma ConfirmingTurn(cfg: Config, s: SubGame, inputs: Inputs)
    requires InSync(cfg, s, inputs) && AllDelivered(inputs, cfg.threshold + 1)
    requires s.step <= cfg.threshold && s.pending == Some(true)
    ensures var (t, r) := RunTurns(cfg, s, inputs, s.step, cfg.threshold + 1);
            r == Ended(Capture) && t.records == s.records + [RecordOf(cfg, s, inputs(s.step))]
  {
    hide Turn, Lawful, Ready, WentOn, RecordOf;
    assert BothDelivered(inputs(s.step));
    TurnCases(cfg, s, inputs(s.step));
  }

  /** Turn `k` below the threshold is the first to meet anything, and it meets `met`. */
  ghost predicate FirstMeets(cfg: Config, records: seq<OwnRecord>, inputs: Inputs, k: nat, met: Encounter) {
    k < |records| && k < cfg.threshold && QuietUpTo(cfg, records, inputs, k) && Met(cfg, records, inputs, k) == met
  }

  /** Outcome characterisation, for a fresh sub-game under the default cap whose deliveries all
      succeed, whatever the reveals contain. The game is a capture with exactly k+2 records if and
      only if turn k is the first to meet anything and it is a hit; a survival with exactly
      `threshold` records if and only if no turn meets anything; otherwise the first encounter is an
      object in place of a cell (a technical loss), a barrier on the chosen cell or evidence that
      cannot be read (exceptions that escape), each if and only if. The cap never runs out. */
  lemma OutcomeIsDecidedByReveals(cfg: Config, number: nat, m: L.Machine, inputs: Inputs, k: nat)
    requires cfg.Valid() && m.state.Waiting? && L.Clean(m) && L.Explained(L.Initializing, m)
    requires AllDelivered(inputs, cfg.threshold + 1)
    ensures var (t, r) := RunTurns(cfg, InitialState(cfg, number, m), inputs, 0, cfg.threshold + 1);
            DecidedBy(cfg, inputs, t.records, r, k)
  {
    hide RunTurns, InSync, DecidedBy, Decided;
    var s := InitialState(cfg, number, m);
    InitialIsInSync(cfg, number, m, inputs);
    assert QuietUpTo(cfg, s.records, inputs, 0);
    DeliveredRunsAreDecided(cfg, s, inputs);
    var (t, r) := RunTurns(cfg, s, inputs, 0, cfg.threshold + 1);
    FirstEncounterIsUnique(cfg, inputs, t.records, r, k);
  }

  /** The result and the number of records, as equivalences with what the turns met. */
  ghost predicate DecidedBy(cfg: Config, inputs: Inputs, records: seq<OwnRecord>, r: TurnResult, k: nat) {
    var n := |records|;
    && (r == Ended(Capture) && n == k + 2 <==> FirstMeets(cfg, records, inputs, k, Hit))
    && (r == Ended(Survival) <==> n == cfg.threshold && QuietUpTo(cfg, records, inputs, n))
    && (r == Ended(Survival) ==> n == cfg.threshold)
    && (r == Ended(TechnicalLoss) && n == k + 1 <==> FirstMeets(cfg, records, inputs, k, Keyless))
    && (r == Raised(Cause.IllegalAction) && n == k + 1 <==> FirstMeets(cfg, records, inputs, k, Blocked))
    && (r == Raised(MalformedEvidence) && n == k + 1 <==> FirstMeets(cfg, records, inputs, k, Garbled))
    && (r.Ended? || r == Raised(Cause.IllegalAction) || r == Raised(MalformedEvidence))
  }

  lemma FirstEncounterIsUnique(cfg: Config, inputs: Inputs, records: seq<OwnRecord>, r: TurnResult, k: nat)
    requires Decided(cfg, inputs, records, r)
    ensures DecidedBy(cfg, inputs, records, r, k)
  {
    hide Faced, Met;
    var n := |records|;
    if k < n && k < cfg.threshold && QuietUpTo(cfg, records, inputs, k) && !Met(cfg, records, inputs, k).Quiet? {
      if r == Ended(Capture) {
        assert k >= n - 2;
        assert forall i :: 0 <= i < k ==> Met(cfg, records, inputs, i).Quiet?;
      } else if r != Ended(Survival) {
        assert k >= n - 1;
      }
    }
  }

  /** The first turn of a fresh sub-game from the corner, when the brain takes its second legal
      direction and both deliveries succeed. */
  ghost predicate CornerStart(cfg: Config, m: L.Machine, input: TurnInput) {
    && cfg.Valid() && m.state.Waiting? && L.Clean(m) && L.Explained(L.Initializing, m)
    && cfg.start == Position(0, 0) && cfg.gridSize >= 2 && input.pick == 1 && BothDelivered(input)
  }

  lemma CornerTurn(cfg: Config, number: nat, m: L.Machine, input: TurnInput)
    requires CornerStart(cfg, m, input)
    ensures var (t, r) := Turn(cfg, InitialState(cfg, number, m), input);
            ResolvedBy(cfg, InitialState(cfg, number, m), input, t, r)
    ensures RecordOf(cfg, InitialState(cfg, number, m), input).turn.move == South
    ensures InitialState(cfg, number, m).position == Position(0, 0)
  {
    hide Turn, L.Explained, L.Clean, Ready, RecordOf, Traced, LegalDirections, UniformPrior, ResolvedBy;
    var s := InitialState(cfg, number, m);
    InitialIsInSync(cfg, number, m, (i: nat) => input);
    SyncedIsReady(cfg, s, (i: nat) => input);
    TurnCases(cfg, s, input);
    SecondChoiceInTheCorner(s, input);
    RecordMove(cfg, s, input);
  }

  /** The escape is real: a first reveal that puts a barrier on the cell the thief has just decided
      to enter, and nothing else, makes the turn raise. */
  lemma BarrierOnTheChosenCellEscapes(cfg: Config, number: nat, m: L.Machine, input: TurnInput)
    requires CornerStart(cfg, m, input)
    requires input.answer.info == map[BarrierField := Arr([Int(1), Int(0)])]
    ensures Turn(cfg, InitialState(cfg, number, m), input).1 == Raised(Cause.IllegalAction)
  {
    hide Turn, InitialState, RecordOf, CornerStart, EncounterOf, ReadReveal, Traced, WentOn;
    CornerTurn(cfg, number, m, input);
    CornerIsDelivered(cfg, m, input);
    BarrierAhead(cfg.gridSize);
  }

  lemma BarrierAhead(n: nat)
    ensures EncounterOf(n, Position(0, 0), South, ReadReveal(map[BarrierField := Arr([Int(1), Int(0)])])).Blocked?
  {
    assert ValidateScentGrid(Null, n) == Rejected(Missing);
  }

  /** So is the other one: a first reveal whose scent grid starts with an integer that no double can
      hold, or whose hint is a number, makes the turn raise. */
  lemma UnreadableEvidenceEscapes(cfg: Config, number: nat, m: L.Machine, input: TurnInput, rest: seq<Json>)
    requires CornerStart(cfg, m, input)
    requires || input.answer.info == map[HintField := Int(1)]
             || (&& |rest| == cfg.gridSize - 1
                 && input.answer.info == map[ScentGridField := Arr([Arr([Int(FLOAT_OVERFLOW)] + rest)] + rest)])
    ensures Turn(cfg, InitialState(cfg, number, m), input).1 == Raised(MalformedEvidence)
  {
    hide Turn, InitialState, RecordOf, CornerStart, EncounterOf, ReadReveal, Traced, WentOn, FLOAT_OVERFLOW;
    CornerTurn(cfg, number, m, input);
    CornerIsDelivered(cfg, m, input);
    if input.answer.info == map[HintField := Int(1)] {
      NumericHint(cfg.gridSize);
    } else {
      OversizedScent(cfg.gridSize, rest);
    }
  }

  lemma NumericHint(n: nat)
    ensures EncounterOf(n, Position(0, 0), South, ReadReveal(map[HintField := Int(1)])).Garbled?
  {
    hide ValidateScentGrid;
  }

  lemma OversizedScent(n: nat, rest: seq<Json>)
    requires n >= 1 && |rest| == n - 1
    ensures var d := map[ScentGridField := Arr([Arr([Int(FLOAT_OVERFLOW)] + rest)] + rest)];
            EncounterOf(n, Position(0, 0), South, ReadReveal(d)).Garbled?
  {
    hide ValidateScentGrid, FLOAT_OVERFLOW;
    OversizedFirstValue(n, rest);
  }

  lemma CornerIsDelivered(cfg: Config, m: L.Machine, input: TurnInput)
    requires CornerStart(cfg, m, input)
    ensures input.answer.Acked? && cfg.gridSize >= 2
  {
  }

  lemma OversizedFirstValue(n: nat, rest: seq<Json>)
    requires n >= 1 && |rest| == n - 1
    ensures ValidateScentGrid(Arr([Arr([Int(FLOAT_OVERFLOW)] + rest)] + rest), n).Overflow?
  {
    var grid := Arr([Arr([Int(FLOAT_OVERFLOW)] + rest)] + rest);
    assert OverflowsAt(grid, n, 0, 0);
    OverflowIsExact(grid, n);
  }

  lemma SecondChoiceInTheCorner(s: SubGame, input: TurnInput)
    requires s.position == Position(0, 0) && s.board.barriers == {} && s.board.size >= 2 && input.pick == 1
    ensures Choice(s, input) == South
  {
    assert KeepLegal(s.position, s.board, North) == [] && KeepLegal(s.position, s.board, South) == [South];
    assert KeepLegal(s.position, s.board, East) == [East] && KeepLegal(s.position, s.board, West) == [];
    assert LegalDirections(s.position, s.board) == [Stay, South, East];
  }

  // ----- Consequences for what is sealed and believed -----

  /** Every scent grid a run seals is the closed form of the cells it sealed, and passes the
      opponent's validation. */
  lemma SealedScentIsValid(cfg: Config, number: nat, records: seq<OwnRecord>, inputs: Inputs, i: nat, q: Position)
    requires Lawful(cfg, number, records, inputs) && i < |records| && Within(cfg.gridSize, q)
    ensures At(records[i].turn.scent, q) == Remembered(Path(records, i + 1), q, 1.0 - DECAY, i + 1, i + 1)
    ensures ValidateScentGrid(NumberGrid(records[i].turn.scent), cfg.gridSize).Legal?
  {
    hide FieldAfter, CommitHash, PayloadOf, ValidateScentGrid;
    assert LawfulRecord(cfg, number, records, inputs, i);
    ScentClosedForm(cfg.gridSize, Path(records, i + 1), DECAY, q);
    EmittedGridsAreAccepted(cfg.gridSize, Path(records, i + 1));
  }

  /** The states between turns, while the loop goes on. */
  function StateAfter(cfg: Config, s: SubGame, inputs: Inputs, k: nat): SubGame {
    if k == 0 then s
    else
      var before := StateAfter(cfg, s, inputs, k - 1);
      Turn(cfg, before, inputs(before.step)).0
  }

  ghost predicate StillRunning(cfg: Config, s: SubGame, inputs: Inputs, k: nat) {
    forall j: nat :: j < k ==>
      Turn(cfg, StateAfter(cfg, s, inputs, j), inputs(StateAfter(cfg, s, inputs, j).step)).1 == Continue
  }

  lemma {:induction false} StatesStayInSync(cfg: Config, s: SubGame, inputs: Inputs, k: nat)
    requires InSync(cfg, s, inputs) && StillRunning(cfg, s, inputs, k)
    ensures InSync(cfg, StateAfter(cfg, s, inputs, k), inputs)
    decreases k
  {
    hide InSync, Turn;
    if k > 0 {
      StatesStayInSync(cfg, s, inputs, k - 1);
      TurnKeepsInSync(cfg, StateAfter(cfg, s, inputs, k - 1), inputs);
    }
  }

  lemma {:induction false} StateSteps(cfg: Config, s: SubGame, inputs: Inputs, k: nat)
    requires InSync(cfg, s, inputs) && StillRunning(cfg, s, inputs, k)
    ensures StateAfter(cfg, s, inputs, k).step == s.step + k
    decreases k
  {
    hide InSync, Turn;
    if k > 0 {
      StateSteps(cfg, s, inputs, k - 1);
      StatesStayInSync(cfg, s, inputs, k - 1);
      TurnKeepsInSync(cfg, StateAfter(cfg, s, inputs, k - 1), inputs);
    }
  }

  /** Belief over a whole sub-game: before turn `k` of any run the belief and the trust are those of
      `k` updates from the uniform distribution and trust one half, each with the barriers announced
      before it and the scent and hint of the reveal just before it. They are a distribution and a
      trust in its range, before and after the turn's own update; and after that update a barrier
      known to the thief has probability zero exactly when the diffusion left more than the
      degenerate mass off the barriers. */
  lemma BeliefOverTheWholeGame(cfg: Config, number: nat, m: L.Machine, inputs: Inputs, k: nat, q: Position)
    requires cfg.Valid() && m.state.Waiting? && L.Clean(m) && L.Explained(L.Initializing, m)
    requires StillRunning(cfg, InitialState(cfg, number, m), inputs, k) && Within(cfg.gridSize, q)
    ensures var s := StateAfter(cfg, InitialState(cfg, number, m), inputs, k);
            var t := Sense(cfg, s);
            && s.step == k && (s.belief, s.trust) == BeliefAfter(cfg, inputs, k)
            && (t.belief, t.trust) == BeliefAfter(cfg, inputs, k + 1)
            && s.belief.Distribution() && TrustInRange(s.trust) && s.belief.size == cfg.gridSize
            && t.belief.Distribution() && TrustInRange(t.trust)
            && s.board.barriers == BarriersBefore(inputs, s.step)
            && (q in s.board.barriers ==>
                  (At(t.belief.grid, q) == 0.0 <==> SurvivingMass(s.belief, s.board) > DEGENERATE_MASS))
  {
    hide InitialState, StateAfter, UpdateBelief, BeliefMap.Distribution, SurvivingMass;
    InitialIsInSync(cfg, number, m, inputs);
    InitialFields(cfg, number, m);
    StatesStayInSync(cfg, InitialState(cfg, number, m), inputs, k);
    StateSteps(cfg, InitialState(cfg, number, m), inputs, k);
    var s := StateAfter(cfg, InitialState(cfg, number, m), inputs, k);
    UpdateKeepsInvariant(s.belief, s.board, s.policeScent, s.hintRegion, s.trust, cfg.entropy);
  }

  /** The update of a synchronised state obeys the law of a whole update. */
  lemma SyncedUpdate(cfg: Config, s: SubGame, inputs: Inputs)
    requires InSync(cfg, s, inputs)
    ensures LawAtTurn(cfg, inputs, s.step)
  {
    hide UpdateBelief, BeliefMap.Distribution, UpdateLaw, ScentBefore, HintBefore, BarriersBefore, BeliefAfter, InSync;
    SyncedBelief(cfg, s, inputs);
    BeliefStep(cfg, inputs, s.step);
    UpdateObeysTheLaw(s.belief, s.board, s.policeScent, s.hintRegion, s.trust, cfg.entropy);
  }

  lemma SyncedBelief(cfg: Config, s: SubGame, inputs: Inputs)
    requires InSync(cfg, s, inputs)
    ensures BeliefInSync(cfg, s, inputs) && Sane(cfg, s) && s.board == BoardBefore(cfg, inputs, s.step)
  {
  }

  lemma BeliefStep(cfg: Config, inputs: Inputs, k: nat)
    requires cfg.gridSize >= 1
    ensures var (belief, trust) := BeliefAfter(cfg, inputs, k);
            BeliefAfter(cfg, inputs, k + 1)
            == UpdateBelief(belief, BoardBefore(cfg, inputs, k), ScentBefore(cfg, inputs, k),
                            HintBefore(cfg, inputs, k), trust, cfg.entropy)
  {
    hide UpdateBelief, ScentBefore, HintBefore, BarriersBefore;
  }

  ghost predicate LawAtTurn(cfg: Config, inputs: Inputs, k: nat)
    requires cfg.gridSize >= 1
  {
    var (b, trust) := BeliefAfter(cfg, inputs, k);
    var (after, updated) := BeliefAfter(cfg, inputs, k + 1);
    exists before, e ::
      UpdateLaw(b, BoardBefore(cfg, inputs, k), ScentBefore(cfg, inputs, k), HintBefore(cfg, inputs, k), trust,
                cfg.entropy, after, updated, before, e)
  }

  /** So every update of every run obeys the law of a whole update. */
  lemma EveryTurnObeysTheLaw(cfg: Config, number: nat, m: L.Machine, inputs: Inputs, k: nat)
    requires cfg.Valid() && m.state.Waiting? && L.Clean(m) && L.Explained(L.Initializing, m)
    requires StillRunning(cfg, InitialState(cfg, number, m), inputs, k)
    ensures LawAtTurn(cfg, inputs, k)
  {
    hide InitialState, StateAfter, InSync, StillRunning, LawAtTurn;
    InitialIsInSync(cfg, number, m, inputs);
    InitialFields(cfg, number, m);
    StatesStayInSync(cfg, InitialState(cfg, number, m), inputs, k);
    StateSteps(cfg, InitialState(cfg, number, m), inputs, k);
    SyncedUpdate(cfg, StateAfter(cfg, InitialState(cfg, number, m), inputs, k), inputs);
  }
}
