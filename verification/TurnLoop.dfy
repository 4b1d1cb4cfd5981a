/** The turn as the program runs it: the mutable per-game state and the methods that update it in
    place, each tied to its function in TurnEngine (services/subgame_state.py, turn_loop.py,
    turn_prep.py, turn_exchange.py). */
module TurnLoop {
  import opened Options
  import opened Geometry
  import opened Grids
  import opened Belief
  import opened BeliefUpdate
  import opened Reveals
  import opened Scent
  import opened Json
  import opened Sealing
  import opened TurnEngine
  import X = Exchange
  import L = Lifecycle

  /** What the first half of a turn leaves: a sealed turn on its way, or an exception. */
  datatype Plan = Sealed(direction: Direction, record: OwnRecord) | Broken(result: TurnResult)

  /** The machine may be shared with a whole series; everything else is this game's own. */
  class SubGameState {
    const number: nat
    const machine: L.PeerStateMachine
    const exchange: X.CommitRevealExchange
    var position: Position
    var board: Board
    var belief: SizedBelief
    var ownScent: Grid
    var visited: set<Position>
    var records: seq<OwnRecord>
    var step: nat
    var policeScent: Option<Grid>
    var hintRegion: Option<set<Position>>
    var hintTrust: real
    var pendingClaimResponse: Option<bool>

    function View(): SubGame
      reads this, machine, exchange
    {
      SubGame(number, position, board, belief, ownScent, machine.View(), exchange.View(), visited, records, step,
              policeScent, hintRegion, hintTrust, pendingClaimResponse)
    }

    constructor (cfg: Config, number: nat, machine: L.PeerStateMachine)
      requires cfg.gridSize >= 1
      ensures View() == InitialState(cfg, number, machine.View())
      ensures this.machine == machine && fresh(this.exchange)
    {
      this.number, this.machine := number, machine;
      exchange := new X.CommitRevealExchange();
      position, board, belief := cfg.start, Board(cfg.gridSize, {}), UniformPrior(cfg.gridSize);
      ownScent, visited, records, step := Empty(cfg.gridSize), {cfg.start}, [], 0;
      policeScent, hintRegion, hintTrust, pendingClaimResponse := None, None, 0.5, None;
    }

    /** Apply one lifecycle event to the machine. */
    method FireEvent(kind: L.EventKind, detail: string) returns (accepted: bool)
      modifies machine
      ensures var f := Fire(old(View()), kind, detail);
              View() == f.state && (accepted <==> f.Go?) && (!accepted ==> f.result == Raised(IllegalTransition))
    {
      hide L.Resolve;
      accepted := machine.Apply(L.Event(kind, detail));
    }

    /** Lay this turn's scent and update the belief. */
    method SenseSurroundings(cfg: Config)
      modifies this
      ensures View() == TurnEngine.Sense(cfg, old(View()))
    {
      hide UpdateBelief, ApplyTurn;
      ownScent := ApplyTurn(ownScent, cfg.gridSize, position, DECAY);
      var updated := UpdateBelief(belief, board, policeScent, hintRegion, hintTrust, cfg.entropy);
      belief, hintTrust := updated.0, updated.1;
    }

    /** Decide and seal. */
    method SealTurn(cfg: Config, input: TurnInput) returns (direction: Direction, record: OwnRecord)
      ensures direction == Choice(View(), input) && record == Draft(cfg, View(), input)
    {
      hide PayloadOf, CommitHash;
      var legal := LegalMoveDirections(position, board);
      direction := legal[input.pick % |legal|];
      var turn := TurnData(step, number, position, direction, input.intent, input.hint, ownScent, pendingClaimResponse,
                           input.timestamp, input.nonce, cfg.configHash);
      record := OwnRecord(turn, CommitHash(PayloadOf(turn)));
    }

    /** `stopped` is the exception, if the evidence cannot be read. */
    method AbsorbPublicEvidence(cfg: Config, opp: OpponentTurn) returns (stopped: Option<TurnResult>)
      modifies this
      ensures Matches(Absorb(cfg, old(View()), opp), View(), stopped)
    {
      hide ToGrid, ValidateScentGrid, HintCellsOf;
      var verdict := ValidateScentGrid(opp.scentGrid, cfg.gridSize);
      if verdict.Overflow? {
        return Some(Raised(MalformedEvidence));
      }
      policeScent := if verdict.Legal? then Some(ToGrid(opp.scentGrid, cfg.gridSize)) else None;
      if opp.hint.NotText? {
        return Some(Raised(MalformedEvidence));
      }
      hintRegion := HintCellsOf(opp.hint, cfg.gridSize);
      if opp.barrier.Unhashable? {
        return Some(Raised(MalformedEvidence));
      }
      if opp.barrier.Named? {
        board := board.WithBarrier(opp.barrier.at);
      }
      stopped := None;
    }

    /** From BEGIN_TURN to COMMIT_SENT: the sealed turn, or the exception that escapes. */
    method PrepareTurn(cfg: Config, input: TurnInput) returns (plan: Plan)
      modifies this, machine, exchange
      ensures Matches(Prepare(cfg, old(View()), input), View(), if plan.Broken? then Some(plan.result) else None)
      ensures plan.Sealed? ==> plan.direction == Choice(View(), input) && plan.record == Draft(cfg, View(), input)
    {
      hide Sense, Fire, PayloadOf, CommitHash, LegalDirections;
      var ok := FireEvent(L.BeginTurn, "");
      if !ok {
        return Broken(Raised(IllegalTransition));
      }
      SenseSurroundings(cfg);
      var direction, record := SealTurn(cfg, input);
      ok := exchange.CommitStep(step, record.commitHash);
      if !ok {
        return Broken(Raised(ExchangeViolation));
      }
      ghost var committed := View();
      ok := FireEvent(L.MoveDecided, "");
      if !ok {
        return Broken(Raised(IllegalTransition));
      }
      ghost var decided := View();
      FireKeeps(committed, L.MoveDecided, "");
      FireKeeps(decided, L.CommitSent, "");
      ok := FireEvent(L.CommitSent, "");
      plan := if ok then Sealed(direction, record) else Broken(Raised(IllegalTransition));
    }

    /** The technical-loss exit. */
    method FailTurn() returns (r: TurnResult)
      modifies machine
      ensures Fail(old(View())) == Stop(View(), r)
    {
      hide L.Resolve;
      var accepted := FireEvent(L.ErrorOccurred, "technical loss");
      r := if accepted then Ended(TechnicalLoss) else Raised(IllegalTransition);
    }

    /** Commitment out, acknowledgement in, reveal out, the opponent's reveal in. */
    method DeliverTurn(cfg: Config, input: TurnInput, record: OwnRecord) returns (stopped: Option<TurnResult>)
      requires record == Draft(cfg, View(), input)
      modifies this, machine, exchange
      ensures Matches(Deliver(cfg, old(View()), input), View(), stopped)
    {
      hide Fire, Fail, PayloadOf, CommitHash, LegalDirections, Draft;
      if input.commit.Cancelled? {
        return Some(Raised(CancelledTask));
      }
      if !input.commit.Acked? {
        var r := FailTurn();
        return Some(r);
      }
      if input.answer.Cancelled? {
        return Some(Raised(CancelledTask));
      }
      if !input.answer.Acked? {
        var r := FailTurn();
        return Some(r);
      }
      var ok := exchange.AcknowledgeStep(step);
      if !ok {
        return Some(Raised(ExchangeViolation));
      }
      ghost var acknowledged := View();
      ok := FireEvent(L.AckReceived, "");
      FireKeeps(acknowledged, L.AckReceived, "");
      if !ok {
        return Some(Raised(IllegalTransition));
      }
      ok := exchange.RevealStep(step, record.Sealed());
      if !ok {
        return Some(Raised(ExchangeViolation));
      }
      ghost var revealed := View();
      ok := FireEvent(L.RevealSent, "");
      FireKeeps(revealed, L.RevealSent, "");
      if !ok {
        return Some(Raised(IllegalTransition));
      }
      records := records + [record];
      stopped := None;
    }

    /** Resolve the opponent's evidence, absorb it, then move or wait to confirm. */
    method ResolveTurn(cfg: Config, direction: Direction, opp: OpponentTurn) returns (r: TurnResult)
      modifies this, machine
      ensures (View(), r) == ResolveAndAdvance(cfg, old(View()), direction, opp)
    {
      hide Absorb, Fire, Fail, MoveOn;
      var resolution := ResolveCapture(position, opp.claim, opp.barrier);
      if resolution.KeyFault? {
        r := FailTurn();
        return;
      }
      if resolution.OtherFault? {
        return Raised(MalformedEvidence);
      }
      var stopped := AbsorbPublicEvidence(cfg, opp);
      if stopped.Some? {
        return stopped.value;
      }
      pendingClaimResponse := if resolution.captured then Some(true) else resolution.response;
      r := MoveTurn(cfg, direction, resolution.captured);
    }

    /** Freeze after a capture; otherwise move on the board that holds this turn's barrier. */
    method MoveTurn(cfg: Config, direction: Direction, captured: bool) returns (r: TurnResult)
      modifies this, machine
      ensures (View(), r) == MoveOn(cfg, old(View()), direction, captured)
    {
      hide Fire, ApplyMove;
      if captured {
        r := AdvanceTurn();
        return;
      }
      var moved := ApplyMove(position, direction, board);
      if moved.IllegalAction? {
        return Raised(Cause.IllegalAction);
      }
      position := moved.cell;
      visited := visited + {position};
      if step + 1 >= cfg.threshold {
        r := CloseGame("survived", Survival);
        return;
      }
      r := AdvanceTurn();
    }

    method AdvanceTurn() returns (r: TurnResult)
      modifies this, machine
      ensures (View(), r) == Advance(old(View()))
    {
      hide Fire;
      ghost var before := View();
      var ok := FireEvent(L.TurnVerified, "");
      FireKeeps(before, L.TurnVerified, "");
      if !ok {
        return Raised(IllegalTransition);
      }
      step := step + 1;
      r := Continue;
    }

    method CloseGame(detail: string, result: Result) returns (r: TurnResult)
      modifies machine
      ensures (View(), r) == Close(old(View()), detail, result)
    {
      hide Fire;
      var ok := FireEvent(L.SubGameEnded, detail);
      r := if ok then Ended(result) else Raised(IllegalTransition);
    }

    /** `run_turn`. */
    method RunTurn(cfg: Config, input: TurnInput) returns (r: TurnResult)
      modifies this, machine, exchange
      ensures (View(), r) == Turn(cfg, old(View()), input)
    {
      hide Prepare, Deliver, ResolveAndAdvance, Close, Draft;
      var plan := PrepareTurn(cfg, input);
      if plan.Broken? {
        return plan.result;
      }
      var wasConfirming := pendingClaimResponse == Some(true);
      ghost var prepared := View();
      DeliverKeeps(cfg, prepared, input);
      var stopped := DeliverTurn(cfg, input, plan.record);
      if stopped.Some? {
        return stopped.value;
      }
      if wasConfirming {
        r := CloseGame("captured", Capture);
        return;
      }
      r := ResolveTurn(cfg, plan.direction, Shown(input));
    }
  }

  /** A method's exit agrees with the functional flow. */
  ghost predicate Matches(f: Flow, view: SubGame, stopped: Option<TurnResult>) {
    view == f.state && stopped == if f.Go? then None else Some(f.result)
  }

  lemma FireKeeps(s: SubGame, kind: L.EventKind, detail: string)
    ensures var t := Fire(s, kind, detail).state; t == s.(machine := t.machine)
  {
  }

  lemma AbsorbKeeps(cfg: Config, s: SubGame, opp: OpponentTurn)
    ensures var t := Absorb(cfg, s, opp).state;
            t == s.(policeScent := t.policeScent, hintRegion := t.hintRegion, board := t.board)
  {
    hide ToGrid, ValidateScentGrid, HintCellsOf;
  }

  /** Delivery leaves everything the choice and the pending answer depend on. */
  lemma DeliverKeeps(cfg: Config, s: SubGame, input: TurnInput)
    ensures var t := Deliver(cfg, s, input).state;
            t == s.(machine := t.machine, exchange := t.exchange, records := t.records)
    ensures Choice(Deliver(cfg, s, input).state, input) == Choice(s, input)
  {
    hide L.Resolve, X.Apply, PayloadOf, CommitHash, LegalDirections, Draft;
  }
}
