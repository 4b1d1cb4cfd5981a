/** One turn of a sub-game and the loop over turns, as functions of the local state and of what the
    environment supplies (services/turn_loop.py, turn_prep.py, turn_exchange.py,
    capture_resolution.py, subgame_state.py, subgame_runtime.py; domain/scoring.py). */
module TurnEngine {
  import opened Options
  import opened Geometry
  import opened Grids
  import opened Belief
  import opened BeliefUpdate
  import opened Reveals
  import opened Scent
  import opened Json
  import opened Sealing
  import X = Exchange
  import L = Lifecycle

  datatype Result = Capture | Survival | TechnicalLoss

  datatype Scoring = Scoring(captureCop: int, captureThief: int, survivalCop: int, survivalThief: int,
                             technicalLoss: int)

  /** The (police, thief) score of one sub-game. */
  function Score(r: Result, s: Scoring): (int, int) {
    match r
    case Capture => (s.captureCop, s.captureThief)
    case Survival => (s.survivalCop, s.survivalThief)
    case TechnicalLoss => (s.technicalLoss, s.technicalLoss)
  }

  datatype Config = Config(gridSize: nat, start: Position, threshold: nat, scoring: Scoring,
                           gameUid: string, configHash: string, entropy: Entropy) {
    predicate Valid() {
      gridSize >= 1 && Within(gridSize, start) && threshold >= 1
    }
  }

  /** What becomes of one delivery: the peer is unreachable, it refuses (or no reveal of its own
      arrives in time), the wait is cancelled, or it is acknowledged. */
  datatype Delivery<T> = Unreachable | Refused | Cancelled | Acked(info: T)

  /** Everything outside the peer's own state that one turn depends on; `pick` selects the brain's
      decision among the legal directions, and the opponent's reveal is any dictionary. */
  datatype TurnInput = TurnInput(pick: nat, intent: string, hint: string, timestamp: string, nonce: string,
                                 commit: Delivery<()>, answer: Delivery<Dict>)

  /** What the opponent's reveal of this turn says; nothing at all when none arrived. */
  function Shown(input: TurnInput): OpponentTurn {
    ReadReveal(if input.answer.Acked? then input.answer.info else map[])
  }

  type SizedBelief = b: BeliefMap | b.size >= 1 witness BeliefMap(1, [[1.0]])

  /** The mutable per-game state. */
  datatype SubGame = SubGame(number: nat, position: Position, board: Board, belief: SizedBelief, ownScent: Grid,
                             machine: L.Machine, exchange: X.Tracker, visited: set<Position>, records: seq<OwnRecord>,
                             step: nat, policeScent: Option<Grid>, hintRegion: Option<set<Position>>, trust: real,
                             pending: Option<bool>)

  function UniformPrior(n: nat): (b: BeliefMap)
    requires n >= 1
    ensures b.size == n
  {
    Normalize(n, Tabulate(n, q => 1.0))
  }

  /** A fresh local state on a machine that may already be part of a series. */
  function InitialState(cfg: Config, number: nat, machine: L.Machine): SubGame
    requires cfg.gridSize >= 1
  {
    SubGame(number, cfg.start, Board(cfg.gridSize, {}), UniformPrior(cfg.gridSize), Empty(cfg.gridSize), machine,
            X.EMPTY, {cfg.start}, [], 0, None, None, 0.5, None)
  }

  /** The exceptions that a turn can let escape. */
  datatype Cause = IllegalTransition | ExchangeViolation | IllegalAction | MalformedEvidence | CancelledTask

  /** The exceptions that have their cause outside the peer. */
  predicate FromOutside(c: Cause) {
    c.CancelledTask? || c.IllegalAction? || c.MalformedEvidence?
  }

  datatype TurnResult = Continue | Ended(result: Result) | Raised(cause: Cause)

  /** Either the turn goes on, or it stops with a result. */
  datatype Flow = Go(state: SubGame) | Stop(state: SubGame, result: TurnResult) {
    predicate IsFailure() {
      Stop?
    }

    function PropagateFailure(): Flow
      requires Stop?
    {
      this
    }

    function Extract(): SubGame
      requires Go?
    {
      state
    }
  }

  /** Apply one lifecycle event; an illegal one raises after being logged. */
  function Fire(s: SubGame, kind: L.EventKind, detail: string): Flow {
    var e := L.Event(kind, detail);
    var after := s.(machine := s.machine.Apply(e));
    if s.machine.Accepts(e) then Go(after) else Stop(after, Raised(IllegalTransition))
  }

  function Track(s: SubGame, op: X.Op): Flow {
    match X.Apply(s.exchange, op)
    case Some(next) => Go(s.(exchange := next))
    case None => Stop(s, Raised(ExchangeViolation))
  }

  /** The technical-loss exit of `run_turn`. */
  function Fail(s: SubGame): (f: Flow)
    ensures f.Stop?
  {
    var forced := Fire(s, L.ErrorOccurred, "technical loss");
    if forced.Go? then Stop(forced.state, Ended(TechnicalLoss)) else forced
  }

  function Choice(s: SubGame, input: TurnInput): Direction {
    var legal := LegalDirections(s.position, s.board);
    legal[input.pick % |legal|]
  }

  /** The record sealed this turn, once the scent of the turn is laid. */
  function Draft(cfg: Config, s: SubGame, input: TurnInput): OwnRecord {
    var turn := TurnData(s.step, s.number, s.position, Choice(s, input), input.intent, input.hint, s.ownScent,
                         s.pending, input.timestamp, input.nonce, cfg.configHash);
    OwnRecord(turn, CommitHash(PayloadOf(turn)))
  }

  /** Lay the scent and update the belief. */
  function Sense(cfg: Config, s: SubGame): SubGame {
    var (belief, trust) := UpdateBelief(s.belief, s.board, s.policeScent, s.hintRegion, s.trust, cfg.entropy);
    s.(ownScent := ApplyTurn(s.ownScent, cfg.gridSize, s.position, DECAY), belief := belief, trust := trust)
  }

  /** From the start of the turn to the sent commitment. */
  function Prepare(cfg: Config, s: SubGame, input: TurnInput): Flow {
    var begun :- Fire(s, L.BeginTurn, "");
    var sensed := Sense(cfg, begun);
    var committed :- Track(sensed, X.Commit(sensed.step, Draft(cfg, sensed, input).commitHash));
    var decided :- Fire(committed, L.MoveDecided, "");
    Fire(decided, L.CommitSent, "")
  }

  /** Both deliveries, the acknowledgement and the reveal. */
  function Deliver(cfg: Config, s: SubGame, input: TurnInput): Flow {
    if input.commit.Unreachable? || input.commit.Refused? then Fail(s)
    else if input.commit.Cancelled? then Stop(s, Raised(CancelledTask))
    else if input.answer.Unreachable? || input.answer.Refused? then Fail(s)
    else if input.answer.Cancelled? then Stop(s, Raised(CancelledTask))
    else
      var record := Draft(cfg, s, input);
      var acknowledged :- Track(s, X.Acknowledge(s.step));
      var revealing :- Fire(acknowledged, L.AckReceived, "");
      var revealed :- Track(revealing, X.Reveal(s.step, record.Sealed()));
      var verifying :- Fire(revealed, L.RevealSent, "");
      Go(verifying.(records := verifying.records + [record]))
  }

  /** The last two: reading the evidence raised KeyError, which the turn turns into a technical loss,
      or another exception, which escapes. */
  datatype Resolution = Resolution(captured: bool, response: Option<bool>) | KeyFault | OtherFault

  /** A barrier on the own cell captures before the claim is looked at; a claim is answered honestly. */
  function ResolveCapture(own: Position, claim: Cell, barrier: Cell): Resolution {
    if barrier.MissingKey? then KeyFault
    else if barrier.Unreadable? then OtherFault
    else if barrier == Named(own) then Resolution(true, None)
    else
      match claim
      case NoCell => Resolution(false, None)
      case MissingKey => KeyFault
      case Unreadable => OtherFault
      case _ => Resolution(claim == Named(own), Some(claim == Named(own)))
  }

  /** Fold the opponent's public reveal into the local knowledge: scent, then hint, then barrier. */
  function Absorb(cfg: Config, s: SubGame, opp: OpponentTurn): Flow {
    var verdict := ValidateScentGrid(opp.scentGrid, cfg.gridSize);
    if verdict.Overflow? then Stop(s, Raised(MalformedEvidence))
    else
      var smelled := s.(policeScent := if verdict.Legal? then Some(ToGrid(opp.scentGrid, cfg.gridSize)) else None);
      if opp.hint.NotText? then Stop(smelled, Raised(MalformedEvidence))
      else
        var heard := smelled.(hintRegion := HintCellsOf(opp.hint, cfg.gridSize));
        if opp.barrier.Unhashable? then Stop(heard, Raised(MalformedEvidence))
        else Go(heard.(board := BoardAfter(heard.board, opp.barrier)))
  }

  /** Coordinates that equal no cell of any board change nothing that is ever looked up. */
  function BoardAfter(board: Board, barrier: Cell): Board {
    if barrier.Named? then board.WithBarrier(barrier.at) else board
  }

  /** The evidence is resolved against the cell the thief sealed; then it moves, or waits to confirm. */
  function ResolveAndAdvance(cfg: Config, s: SubGame, direction: Direction, opp: OpponentTurn): (SubGame, TurnResult) {
    match ResolveCapture(s.position, opp.claim, opp.barrier)
    case KeyFault => Exit(Fail(s))
    case OtherFault => (s, Raised(MalformedEvidence))
    case Resolution(captured, response) =>
      var absorbed := Absorb(cfg, s, opp);
      if absorbed.Stop? then Exit(absorbed)
      else MoveOn(cfg, absorbed.state.(pending := if captured then Some(true) else response), direction, captured)
  }

  function Exit(f: Flow): (SubGame, TurnResult)
    requires f.Stop?
  {
    (f.state, f.result)
  }

  /** With the evidence absorbed: freeze after a capture, else move, and survive at the threshold. */
  function MoveOn(cfg: Config, known: SubGame, direction: Direction, captured: bool): (SubGame, TurnResult) {
    if captured then Advance(known)
    else
      var moved := ApplyMove(known.position, direction, known.board);
      if moved.IllegalAction? then (known, Raised(Cause.IllegalAction))
      else
        var arrived := known.(position := moved.cell, visited := known.visited + {moved.cell});
        if arrived.step + 1 >= cfg.threshold then Close(arrived, "survived", Survival) else Advance(arrived)
  }

  function Advance(s: SubGame): (SubGame, TurnResult) {
    match Fire(s, L.TurnVerified, "")
    case Go(after) => (after.(step := after.step + 1), Continue)
    case Stop(after, r) => (after, r)
  }

  function Close(s: SubGame, detail: string, result: Result): (SubGame, TurnResult) {
    match Fire(s, L.SubGameEnded, detail)
    case Go(after) => (after, Ended(result))
    case Stop(after, r) => (after, r)
  }

  /** After the reveal: a thief that has just confirmed its capture is done. */
  function Conclude(cfg: Config, s: SubGame, input: TurnInput): (SubGame, TurnResult) {
    if s.pending == Some(true) then Close(s, "captured", Capture)
    else ResolveAndAdvance(cfg, s, Choice(s, input), Shown(input))
  }

  /** `run_turn`. */
  function Turn(cfg: Config, s: SubGame, input: TurnInput): (SubGame, TurnResult) {
    match Prepare(cfg, s, input)
    case Stop(stopped, r) => (stopped, r)
    case Go(prepared) =>
      match Deliver(cfg, prepared, input)
      case Stop(stopped, r) => (stopped, r)
      case Go(delivered) => Conclude(cfg, delivered, input)
  }

  type Inputs = nat -> TurnInput

  /** The turn loop: at most `cap` turns; `Continue` means the cap ran out. */
  function RunTurns(cfg: Config, s: SubGame, inputs: Inputs, i: nat, cap: int): (SubGame, TurnResult)
    decreases cap - i
  {
    if i >= cap then (s, Continue)
    else
      var (next, r) := Turn(cfg, s, inputs(i));
      if r.Continue? then RunTurns(cfg, next, inputs, i + 1, cap) else (next, r)
  }
}
