/** What one turn does from a state between turns: every branch of the turn, in closed form. */
module TurnFacts {
  import opened Options
  import opened Geometry
  import opened Grids
  import opened Belief
  import opened BeliefUpdate
  import opened Reveals
  import opened Scent
  import opened Json
  import opened Sealing
  import opened TurnEngine
  import X = Exchange
  import L = Lifecycle

  /** Steps 0 .. n-1 are revealed and nothing else was ever committed. */
  ghost predicate Synced(t: X.Tracker, n: nat) {
    && (forall k :: k in t.phase <==> 0 <= k < n)
    && (forall k :: k in t.hashes <==> 0 <= k < n)
    && forall k :: 0 <= k < n ==> t.phase[k].Revealed?
  }

  ghost predicate Sane(cfg: Config, s: SubGame) {
    && s.belief.Distribution() && s.belief.size == cfg.gridSize && s.board.size == cfg.gridSize
    && TrustInRange(s.trust) && ScentAcceptable(s.policeScent, cfg.gridSize)
  }

  /** The state between two turns. */
  ghost predicate Ready(cfg: Config, s: SubGame) {
    && cfg.Valid()
    && s.machine.state.Waiting? && L.Clean(s.machine) && L.Explained(L.Initializing, s.machine)
    && Synced(s.exchange, s.step) && |s.records| == s.step
    && Within(cfg.gridSize, s.position)
    && Sane(cfg, s)
  }

  /** The turn names the thief's own cell, by claim or by barrier. */
  predicate Hits(own: Position, opp: OpponentTurn) {
    opp.barrier == Named(own) || opp.claim == Named(own)
  }

  /** Not a hit, but a barrier falls on the cell the thief has already decided to enter. */
  predicate Blocks(own: Position, d: Direction, opp: OpponentTurn) {
    !Hits(own, opp) && opp.barrier == Named(Move(own, d))
  }

  /** The honest answer to the evidence of one turn. */
  function HonestAnswer(own: Position, opp: OpponentTurn): Option<bool> {
    if Hits(own, opp) then Some(true) else if opp.claim.NoCell? then None else Some(false)
  }

  /** What a reveal does to a thief on `own` that has decided to move in direction `d`: it cannot be
      read, because a cell field is an object (Keyless) or for another reason (Garbled); it names the
      own cell; it bars the chosen cell; or none of these. */
  datatype Encounter = Hit | Blocked | Quiet | Keyless | Garbled

  /** A claim is not read when a barrier already captures; the scent, the hint and the hash of the
      barrier come after both cells. */
  function EncounterOf(n: nat, own: Position, d: Direction, opp: OpponentTurn): Encounter {
    if opp.barrier.MissingKey? then Keyless
    else if opp.barrier.Unreadable? then Garbled
    else if opp.barrier != Named(own) && opp.claim.MissingKey? then Keyless
    else if opp.barrier != Named(own) && opp.claim.Unreadable? then Garbled
    else if ValidateScentGrid(opp.scentGrid, n).Overflow? || opp.hint.NotText? || opp.barrier.Unhashable? then Garbled
    else if Hits(own, opp) then Hit
    else if Blocks(own, d, opp) then Blocked
    else Quiet
  }

  predicate BothDelivered(input: TurnInput) {
    input.commit.Acked? && input.answer.Acked?
  }

  /** Which delivery failed, if any: the first one that was not acknowledged. */
  function FailureOf(input: TurnInput): TurnResult {
    if (if input.commit.Acked? then input.answer.Cancelled? else input.commit.Cancelled?)
    then Raised(CancelledTask) else Ended(TechnicalLoss)
  }

  /** The record a turn from `s` seals: the state's cell and pending answer, the step number, the
      environment's hint, timestamp and nonce, the new scent, and the commitment to all of it. */
  function RecordOf(cfg: Config, s: SubGame, input: TurnInput): OwnRecord {
    var turn := TurnData(s.step, s.number, s.position, Choice(s, input), input.intent, input.hint,
                         ApplyTurn(s.ownScent, cfg.gridSize, s.position, DECAY), s.pending,
                         input.timestamp, input.nonce, cfg.configHash);
    OwnRecord(turn, CommitHash(PayloadOf(turn)))
  }

  // ----- Stages -----

  lemma FireFacts(s: SubGame, kind: L.EventKind, detail: string)
    requires L.Clean(s.machine) && L.Explained(L.Initializing, s.machine)
    ensures Fire(s, kind, detail).Go? <==> s.machine.Accepts(L.Event(kind, detail))
    ensures var t := Fire(s, kind, detail).state;
            && t == s.(machine := s.machine.Apply(L.Event(kind, detail)))
            && L.Explained(L.Initializing, t.machine)
            && (Fire(s, kind, detail).Go? ==>
                  && L.Clean(t.machine)
                  && Some(t.machine.state) == L.Resolve(s.machine.state, L.Event(kind, detail)))
  {
    hide L.Explained, L.Resolve;
    L.ApplyKeepsExplained(L.Initializing, s.machine, L.Event(kind, detail));
  }

  /** The events of a turn are accepted in their states. */
  lemma AcceptFacts()
    ensures forall h, d :: L.Machine(L.Waiting, h).Accepts(L.Event(L.BeginTurn, d))
    ensures forall h, d :: L.Machine(L.Thinking, h).Accepts(L.Event(L.MoveDecided, d))
    ensures forall h, d :: L.Machine(L.Committing, h).Accepts(L.Event(L.CommitSent, d))
    ensures forall h, d :: L.Machine(L.WaitingForAck, h).Accepts(L.Event(L.AckReceived, d))
    ensures forall h, d :: L.Machine(L.Revealing, h).Accepts(L.Event(L.RevealSent, d))
  {
  }

  ghost predicate Traced(s: SubGame, state: L.PeerState) {
    s.machine.state == state && L.Clean(s.machine) && L.Explained(L.Initializing, s.machine)
  }

  lemma SenseFacts(cfg: Config, s: SubGame)
    requires cfg.gridSize >= 1 && Sane(cfg, s)
    ensures Sane(cfg, Sense(cfg, s))
    ensures Sense(cfg, s) == s.(ownScent := ApplyTurn(s.ownScent, cfg.gridSize, s.position, DECAY),
                                belief := Sense(cfg, s).belief, trust := Sense(cfg, s).trust)
  {
    hide UpdateBelief, BeliefMap.Distribution;
    UpdateKeepsInvariant(s.belief, s.board, s.policeScent, s.hintRegion, s.trust, cfg.entropy);
  }

  /** The prepared state: the commitment is out, nothing else has moved. */
  ghost predicate Prepared(cfg: Config, s: SubGame, input: TurnInput, p: SubGame) {
    && Traced(p, L.WaitingForAck)
    && Sane(cfg, p)
    && p == Sense(cfg, s).(machine := p.machine, exchange := p.exchange)
    && Draft(cfg, p, input) == RecordOf(cfg, s, input)
    && X.Apply(s.exchange, X.Commit(s.step, RecordOf(cfg, s, input).commitHash)) == Some(p.exchange)
  }

  lemma PrepareFacts(cfg: Config, s: SubGame, input: TurnInput)
    requires Ready(cfg, s)
    ensures Prepare(cfg, s, input).Go? && Prepared(cfg, s, input, Prepare(cfg, s, input).state)
  {
    hide L.Explained, L.Clean, PayloadOf, CommitHash, LegalDirections, ApplyTurn, Sense, Fire, Sane, X.Apply, Synced,
      L.Machine.Accepts;
    ExchangeTurn(s.exchange, s.step, RecordOf(cfg, s, input));
    AcceptFacts();
    FireFacts(s, L.BeginTurn, "");
    var begun := Fire(s, L.BeginTurn, "").state;
    SaneIgnores(cfg, s, begun);
    SenseFacts(cfg, begun);
    SenseCommutes(cfg, s, begun.machine);
    var sensed := Sense(cfg, begun);
    var committed := Track(sensed, X.Commit(sensed.step, Draft(cfg, sensed, input).commitHash)).state;
    FireFacts(committed, L.MoveDecided, "");
    var decided := Fire(committed, L.MoveDecided, "").state;
    FireFacts(decided, L.CommitSent, "");
    SaneIgnores(cfg, sensed, Fire(decided, L.CommitSent, "").state);
  }

  lemma SaneIgnores(cfg: Config, s: SubGame, t: SubGame)
    requires t == s.(machine := t.machine, exchange := t.exchange, records := t.records, step := t.step,
                     position := t.position, visited := t.visited, pending := t.pending)
    ensures Sane(cfg, t) == Sane(cfg, s)
  {
  }

  lemma SenseCommutes(cfg: Config, s: SubGame, m: L.Machine)
    ensures Sense(cfg, s.(machine := m)) == Sense(cfg, s).(machine := m)
    ensures Sense(cfg, s).position == s.position && Sense(cfg, s).board == s.board
    ensures Sense(cfg, s).exchange == s.exchange
    ensures Sense(cfg, s).step == s.step && Sense(cfg, s).number == s.number && Sense(cfg, s).pending == s.pending
    ensures Sense(cfg, s).ownScent == ApplyTurn(s.ownScent, cfg.gridSize, s.position, DECAY)
    ensures Sense(cfg, s).records == s.records && Sense(cfg, s).visited == s.visited
  {
    hide UpdateBelief, ApplyTurn;
  }

  /** The delivered state: the record is revealed and kept. */
  ghost predicate Delivered(cfg: Config, s: SubGame, input: TurnInput, d: SubGame) {
    && Traced(d, L.Verifying)
    && Sane(cfg, d)
    && d == Sense(cfg, s).(machine := d.machine, exchange := d.exchange,
                           records := s.records + [RecordOf(cfg, s, input)])
    && Synced(d.exchange, s.step + 1)
  }

  /** The exchange tracker accepts the commit, acknowledge and reveal of the next step. */
  lemma ExchangeTurn(t: X.Tracker, step: nat, record: OwnRecord)
    requires Synced(t, step) && record.commitHash == CommitHash(PayloadOf(record.turn))
    ensures var committed := X.Apply(t, X.Commit(step, record.commitHash));
            && committed.Some?
            && var acknowledged := X.Apply(committed.value, X.Acknowledge(step));
            && acknowledged.Some?
            && var shown := X.Apply(acknowledged.value, X.Reveal(step, record.Sealed()));
            && shown.Some? && Synced(shown.value, step + 1)
  {
    hide PayloadOf, CommitHash;
  }

  lemma DeliverFacts(cfg: Config, s: SubGame, input: TurnInput, p: SubGame)
    requires Ready(cfg, s) && Prepared(cfg, s, input, p) && BothDelivered(input)
    ensures Deliver(cfg, p, input).Go? && Delivered(cfg, s, input, Deliver(cfg, p, input).state)
  {
    hide L.Explained, L.Clean, PayloadOf, CommitHash, LegalDirections, ApplyTurn, Sense, Fire, Sane, Draft, X.Apply,
      Synced, L.Machine.Accepts;
    SenseCommutes(cfg, s, p.machine);
    ExchangeTurn(s.exchange, s.step, RecordOf(cfg, s, input));
    AcceptFacts();
    var acknowledged := Track(p, X.Acknowledge(p.step)).state;
    FireFacts(acknowledged, L.AckReceived, "");
    var acked := Fire(acknowledged, L.AckReceived, "").state;
    var shown := Track(acked, X.Reveal(p.step, Draft(cfg, p, input).Sealed())).state;
    FireFacts(shown, L.RevealSent, "");
    SaneIgnores(cfg, p, Deliver(cfg, p, input).state);
  }

  lemma FailFacts(p: SubGame)
    requires Traced(p, L.WaitingForAck)
    ensures Fail(p).result == Ended(TechnicalLoss) && Traced(Fail(p).state, L.Error)
    ensures Fail(p).state.records == p.records
  {
    hide L.Explained, L.Clean, Fire;
    FireFacts(p, L.ErrorOccurred, "technical loss");
  }

  lemma DeliveryFailureFacts(cfg: Config, s: SubGame, input: TurnInput, p: SubGame)
    requires Prepared(cfg, s, input, p) && !BothDelivered(input)
    ensures var f := Deliver(cfg, p, input);
            && f.Stop? && f.result == FailureOf(input) && f.state.records == s.records
            && Traced(f.state, if f.result == Ended(TechnicalLoss) then L.Error else L.WaitingForAck)
  {
    hide L.Explained, L.Clean, Sense, Fire, Fail, Sane, Draft, X.Apply, L.Resolve, PayloadOf, CommitHash;
    SenseCommutes(cfg, s, p.machine);
    FailFacts(p);
  }

  // ----- The turn -----

  /** What the local state becomes after a delivered turn that goes on. */
  ghost predicate WentOn(cfg: Config, s: SubGame, input: TurnInput, t: SubGame) {
    var opp, rec := Shown(input), RecordOf(cfg, s, input);
    && Ready(cfg, t)
    && t.number == s.number && t.step == s.step + 1
    && t.records == s.records + [rec]
    && t.pending == HonestAnswer(s.position, opp)
    && t.position == (if Hits(s.position, opp) then s.position else Move(s.position, rec.turn.move))
    && t.board == BoardAfter(s.board, opp.barrier)
    && t.ownScent == rec.turn.scent
    && t.belief == Sense(cfg, s).belief && t.trust == Sense(cfg, s).trust
    && t.visited == s.visited + (if Hits(s.position, opp) then {} else {t.position})
    && PublicEvidence(cfg, opp, t)
  }

  /** The evidence kept for the next belief update: the opponent's scent grid exactly when it is
      legal, and the cells of its hint exactly when it names a region. */
  ghost predicate PublicEvidence(cfg: Config, opp: OpponentTurn, t: SubGame) {
    && (t.policeScent.Some? <==> ValidateScentGrid(opp.scentGrid, cfg.gridSize).Legal?)
    && (t.policeScent.Some? ==> t.policeScent.value == ToGrid(opp.scentGrid, cfg.gridSize))
    && t.hintRegion == HintCellsOf(opp.hint, cfg.gridSize)
  }

  lemma AbsorbIsSane(cfg: Config, d: SubGame, opp: OpponentTurn)
    requires Sane(cfg, d)
    ensures Sane(cfg, Absorb(cfg, d, opp).state)
  {
    hide ToGrid, ValidateScentGrid, BeliefMap.Distribution, HintCellsOf;
    ValidGridsAreBounded(opp.scentGrid, cfg.gridSize);
  }

  /** What a delivered turn that does not confirm a capture ends in, by what it meets. */
  ghost predicate ResolvedBy(cfg: Config, s: SubGame, input: TurnInput, t: SubGame, r: TurnResult) {
    match EncounterOf(cfg.gridSize, s.position, RecordOf(cfg, s, input).turn.move, Shown(input))
    case Keyless => r == Ended(TechnicalLoss) && Traced(t, L.Error)
    case Garbled => r == Raised(MalformedEvidence) && Traced(t, L.Verifying)
    case Blocked => r == Raised(Cause.IllegalAction) && Traced(t, L.Verifying)
    case Hit => r == Continue && WentOn(cfg, s, input, t)
    case Quiet =>
      if s.step + 1 >= cfg.threshold then r == Ended(Survival) && Traced(t, L.SubGameOver)
      else r == Continue && WentOn(cfg, s, input, t)
  }

  /** The whole turn, case by case, for any reveal whatever. A failed delivery ends it as a technical
      loss in ERROR with no record added; a cancellation escapes while the peer waits. A delivered
      turn keeps its record; then a pending confirmation closes the game as a capture; otherwise
      what the reveal does decides: an object in place of a cell is a technical loss, other evidence
      that cannot be read escapes, so does a barrier on the chosen cell, a hit goes on with the
      position frozen, and else the thief moves, and survives once the threshold is reached. */
  lemma TurnCases(cfg: Config, s: SubGame, input: TurnInput)
    requires Ready(cfg, s)
    ensures var (t, r) := Turn(cfg, s, input);
            if !BothDelivered(input) then
              && r == FailureOf(input) && t.records == s.records
              && Traced(t, if r == Ended(TechnicalLoss) then L.Error else L.WaitingForAck)
            else
              && t.records == s.records + [RecordOf(cfg, s, input)]
              && (if s.pending == Some(true) then r == Ended(Capture) && Traced(t, L.SubGameOver)
                  else ResolvedBy(cfg, s, input, t, r))
  {
    hide L.Explained, L.Clean, PayloadOf, CommitHash, LegalDirections, ApplyTurn, Sense, Fire, Sane, Prepare, Deliver,
      Conclude, Draft, Synced, ResolvedBy;
    PrepareFacts(cfg, s, input);
    var p := Prepare(cfg, s, input).state;
    if !BothDelivered(input) {
      DeliveryFailureFacts(cfg, s, input, p);
    } else {
      DeliverFacts(cfg, s, input, p);
      ConcludeFacts(cfg, s, input, Deliver(cfg, p, input).state);
    }
  }

  lemma CloseFacts(d: SubGame, detail: string, result: Result)
    requires Traced(d, L.Verifying)
    ensures Close(d, detail, result).1 == Ended(result) && Traced(Close(d, detail, result).0, L.SubGameOver)
    ensures Close(d, detail, result).0.records == d.records
  {
    hide L.Explained, L.Clean;
    FireFacts(d, L.SubGameEnded, detail);
  }

  lemma AdvanceFacts(d: SubGame)
    requires Traced(d, L.Verifying)
    ensures Advance(d).1 == Continue && Traced(Advance(d).0, L.Waiting)
    ensures Advance(d).0 == d.(machine := Advance(d).0.machine, step := d.step + 1)
  {
    hide L.Explained, L.Clean;
    FireFacts(d, L.TurnVerified, "");
  }

  lemma ConcludeFacts(cfg: Config, s: SubGame, input: TurnInput, d: SubGame)
    requires Ready(cfg, s) && Delivered(cfg, s, input, d)
    ensures var (t, r) := Conclude(cfg, d, input);
            && t.records == s.records + [RecordOf(cfg, s, input)]
            && (if s.pending == Some(true) then r == Ended(Capture) && Traced(t, L.SubGameOver)
                else ResolvedBy(cfg, s, input, t, r))
  {
    hide L.Explained, L.Clean, PayloadOf, CommitHash, ApplyTurn, Sense, Fire, Sane, Close, ResolveAndAdvance, Synced,
      LegalDirections, RecordOf, ResolvedBy;
    SenseCommutes(cfg, s, d.machine);
    if s.pending == Some(true) {
      CloseFacts(d, "captured", Capture);
    } else {
      ResolveFacts(cfg, s, input, d);
    }
  }

  /** The evidence can be read. */
  predicate Legible(n: nat, own: Position, opp: OpponentTurn) {
    var met := EncounterOf(n, own, Stay, opp);
    !met.Keyless? && !met.Garbled?
  }

  /** Whether evidence can be read does not depend on the chosen direction, and decides both stages
      of the resolution. */
  lemma LegibleStages(cfg: Config, d: SubGame, direction: Direction, opp: OpponentTurn)
    requires Legible(cfg.gridSize, d.position, opp)
    ensures ResolveCapture(d.position, opp.claim, opp.barrier).Resolution? && Absorb(cfg, d, opp).Go?
    ensures var resolution := ResolveCapture(d.position, opp.claim, opp.barrier);
            && resolution.captured == Hits(d.position, opp)
            && (if resolution.captured then Some(true) else resolution.response) == HonestAnswer(d.position, opp)
    ensures EncounterOf(cfg.gridSize, d.position, direction, opp)
         == if Hits(d.position, opp) then Hit else if Blocks(d.position, direction, opp) then Blocked else Quiet
  {
    hide ValidateScentGrid, ToGrid, HintCellsOf;
  }

  /** Evidence that cannot be read stops the turn before anything but the evidence fields changes. */
  lemma IllegibleStages(cfg: Config, d: SubGame, direction: Direction, opp: OpponentTurn)
    requires Traced(d, L.Verifying) && !Legible(cfg.gridSize, d.position, opp)
    ensures var (t, r) := ResolveAndAdvance(cfg, d, direction, opp);
            && t.records == d.records
            && if EncounterOf(cfg.gridSize, d.position, direction, opp).Keyless?
               then r == Ended(TechnicalLoss) && Traced(t, L.Error)
               else EncounterOf(cfg.gridSize, d.position, direction, opp).Garbled?
                    && r == Raised(MalformedEvidence) && Traced(t, L.Verifying)
  {
    hide ValidateScentGrid, ToGrid, HintCellsOf, L.Explained, L.Clean, Fire, MoveOn;
    FireFacts(d, L.ErrorOccurred, "technical loss");
    AbsorbMoves(cfg, d, opp);
  }

  lemma AbsorbMoves(cfg: Config, d: SubGame, opp: OpponentTurn)
    ensures var t := Absorb(cfg, d, opp).state;
            t == d.(policeScent := t.policeScent, hintRegion := t.hintRegion, board := t.board)
  {
    hide ToGrid, ValidateScentGrid, HintCellsOf;
  }

  /** What a delivered state knows once legible evidence is absorbed. */
  function Known(cfg: Config, s: SubGame, input: TurnInput, d: SubGame): SubGame {
    Absorb(cfg, d, Shown(input)).state.(pending := HonestAnswer(s.position, Shown(input)))
  }

  lemma KnownFacts(cfg: Config, s: SubGame, input: TurnInput, d: SubGame)
    requires Ready(cfg, s) && Delivered(cfg, s, input, d) && Absorb(cfg, d, Shown(input)).Go?
    ensures var k := Known(cfg, s, input, d);
            && Traced(k, L.Verifying) && Sane(cfg, k) && Synced(k.exchange, s.step + 1)
            && k.records == s.records + [RecordOf(cfg, s, input)]
            && k.position == s.position && k.step == s.step && k.number == s.number
            && k.pending == HonestAnswer(s.position, Shown(input))
            && k.board == BoardAfter(s.board, Shown(input).barrier)
            && k.ownScent == RecordOf(cfg, s, input).turn.scent
            && k.belief == Sense(cfg, s).belief && k.trust == Sense(cfg, s).trust
            && k.visited == s.visited && PublicEvidence(cfg, Shown(input), k)
  {
    hide L.Explained, L.Clean, PayloadOf, CommitHash, ApplyTurn, Sense, Sane, Synced, LegalDirections,
      ValidateScentGrid, ToGrid, HintCellsOf, Shown, HonestAnswer;
    SenseCommutes(cfg, s, d.machine);
    AbsorbIsSane(cfg, d, Shown(input));
    SaneIgnores(cfg, Absorb(cfg, d, Shown(input)).state, Known(cfg, s, input, d));
  }

  /** Where the chosen move leads: a cell of the board, reachable unless the new barrier is on it. */
  lemma MoveFacts(s: SubGame, input: TurnInput, opp: OpponentTurn)
    requires Within(s.board.size, s.position) && !Hits(s.position, opp)
    ensures var board := BoardAfter(s.board, opp.barrier);
            var d := Choice(s, input);
            && Within(s.board.size, Move(s.position, d))
            && ApplyMove(s.position, d, board)
            == if Blocks(s.position, d, opp) then Moved.IllegalAction else Reached(Move(s.position, d))
  {
    assert Choice(s, input) in LegalDirections(s.position, s.board);
  }

  lemma ResolveFacts(cfg: Config, s: SubGame, input: TurnInput, d: SubGame)
    requires Ready(cfg, s) && Delivered(cfg, s, input, d) && s.pending != Some(true)
    ensures var (t, r) := ResolveAndAdvance(cfg, d, Choice(d, input), Shown(input));
            t.records == s.records + [RecordOf(cfg, s, input)] && ResolvedBy(cfg, s, input, t, r)
  {
    hide L.Explained, L.Clean, Sense, Fire, Sane, MoveOn, Synced, Absorb, RecordOf, Choice, EncounterOf, Known,
      ResolveCapture, WentOn, Shown, HonestAnswer;
    DeliveredPlace(cfg, s, input, d);
    if Legible(cfg.gridSize, d.position, Shown(input)) {
      LegibleStages(cfg, d, Choice(d, input), Shown(input));
      MoveOnFacts(cfg, s, input, d);
      KnownUnfolds(cfg, s, input, d);
    } else {
      IllegibleStages(cfg, d, Choice(d, input), Shown(input));
    }
  }

  lemma KnownUnfolds(cfg: Config, s: SubGame, input: TurnInput, d: SubGame)
    ensures Known(cfg, s, input, d)
         == Absorb(cfg, d, Shown(input)).state.(pending := HonestAnswer(s.position, Shown(input)))
  {
    hide Absorb, Shown;
  }

  /** The delivered state stands where the sealed record says, with the sealed move decided. */
  lemma DeliveredPlace(cfg: Config, s: SubGame, input: TurnInput, d: SubGame)
    requires Delivered(cfg, s, input, d)
    ensures d.position == s.position && Choice(d, input) == RecordOf(cfg, s, input).turn.move == Choice(s, input)
    ensures Traced(d, L.Verifying) && d.records == s.records + [RecordOf(cfg, s, input)]
  {
    hide L.Explained, L.Clean, PayloadOf, CommitHash, ApplyTurn, Sense, Sane, Synced, LegalDirections;
    SenseCommutes(cfg, s, d.machine);
  }

  /** The last stage: freeze, raise, survive or go on. */
  lemma MoveOnFacts(cfg: Config, s: SubGame, input: TurnInput, d: SubGame)
    requires Ready(cfg, s) && Delivered(cfg, s, input, d) && Absorb(cfg, d, Shown(input)).Go?
    ensures var opp, rec := Shown(input), RecordOf(cfg, s, input);
            var (t, r) := MoveOn(cfg, Known(cfg, s, input, d), rec.turn.move, Hits(s.position, opp));
            && t.records == s.records + [rec]
            && (if Blocks(s.position, rec.turn.move, opp) then
                  r == Raised(Cause.IllegalAction) && Traced(t, L.Verifying)
                else if !Hits(s.position, opp) && s.step + 1 >= cfg.threshold then
                  r == Ended(Survival) && Traced(t, L.SubGameOver)
                else r == Continue && WentOn(cfg, s, input, t))
  {
    hide L.Explained, L.Clean, Sense, Fire, Sane, Close, Advance, Synced, Absorb, RecordOf, Choice, ApplyMove,
      Delivered, Shown, HonestAnswer, Known, BoardAfter;
    var opp, rec := Shown(input), RecordOf(cfg, s, input);
    KnownFacts(cfg, s, input, d);
    var known := Known(cfg, s, input, d);
    if Hits(s.position, opp) {
      AdvanceFacts(known);
      SaneIgnores(cfg, known, Advance(known).0);
    } else {
      SaneBoard(cfg, s);
      RecordMove(cfg, s, input);
      MoveFacts(s, input, opp);
      if !Blocks(s.position, rec.turn.move, opp) {
        var cell := Move(s.position, rec.turn.move);
        var arrived := known.(position := cell, visited := known.visited + {cell});
        SaneIgnores(cfg, known, arrived);
        CloseFacts(arrived, "survived", Survival);
        AdvanceFacts(arrived);
        SaneIgnores(cfg, arrived, Advance(arrived).0);
      }
    }
  }

  lemma SaneBoard(cfg: Config, s: SubGame)
    requires Sane(cfg, s)
    ensures s.board.size == cfg.gridSize
  {
  }

  lemma RecordMove(cfg: Config, s: SubGame, input: TurnInput)
    ensures RecordOf(cfg, s, input).turn.move == Choice(s, input)
  {
  }
}
