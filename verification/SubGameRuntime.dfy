/** One complete sub-game: the turn loop under its cap, the abort, the closing self-audit and the
    score (services/subgame_runtime.py). */
module SubGameRuntime {
  import opened Options
  import opened Geometry
  import opened Json
  import opened Sealing
  import opened TurnEngine
  import opened TurnFacts
  import opened SubGameRuns
  import opened TurnLoop
  import opened BeliefUpdate
  import opened Reveals
  import opened Scent
  import X = Exchange
  import L = Lifecycle

  /** `audit` is None when the peer was in ERROR and no audit ran. */
  datatype RunResult = RunResult(result: Result, records: seq<OwnRecord>, audit: Option<Verdict>, police: int,
                                 thief: int)

  /** A typed outcome, or the exception that escapes. */
  datatype Finish = Finished(run: RunResult) | Escaped(cause: Cause)

  /** What `audit_sealed_records` says of one's own records. */
  function AuditVerdict(records: seq<OwnRecord>): Verdict {
    if HashesMatch(SealedList(records)) && NoncesDistinct(SealedList(records)) then Verified else TamperForfeit
  }

  function Scored(cfg: Config, s: SubGame, result: Result, audit: Option<Verdict>): RunResult {
    RunResult(result, s.records, audit, Score(result, cfg.scoring).0, Score(result, cfg.scoring).1)
  }

  /** A peer that is not in ERROR audits itself; a failed audit turns the result into a loss. */
  function Finalize(cfg: Config, s: SubGame, result: Result): (SubGame, Finish) {
    if s.machine.state.Error? then (s, Finished(Scored(cfg, s, result, None)))
    else
      var audit := AuditVerdict(s.records);
      match Fire(s, L.BeginAudit, "")
      case Stop(t, r) => (t, Escaped(IllegalTransition))
      case Go(t) => (t, Finished(Scored(cfg, t, if audit.Verified? then result else TechnicalLoss, Some(audit))))
  }

  function Abort(cfg: Config, s: SubGame, reason: string): (SubGame, Finish) {
    if s.machine.state.Error? then Finalize(cfg, s, TechnicalLoss)
    else
      match Fire(s, L.ErrorOccurred, reason)
      case Stop(t, r) => (t, Escaped(IllegalTransition))
      case Go(t) => Finalize(cfg, t, TechnicalLoss)
  }

  const LIFECYCLE_TO_WAITING: seq<L.EventKind> := [L.ServerStarted, L.BeginNegotiation, L.TermsSigned, L.SubGameStart]

  function DetailOf(kind: L.EventKind): string {
    if kind.TermsSigned? then "config_sha256" else ""
  }

  /** Fire the given events in order; stop at the first illegal one. */
  function FireAll(s: SubGame, kinds: seq<L.EventKind>): Flow
    decreases |kinds|
  {
    if kinds == [] then Go(s)
    else
      var next :- Fire(s, kinds[0], DetailOf(kinds[0]));
      FireAll(next, kinds[1..])
  }

  /** `None` is the default cap. */
  function Cap(cfg: Config, maxTurns: Option<int>): int {
    if maxTurns.Some? then maxTurns.value else cfg.threshold + 1
  }

  /** After the turn loop. */
  function Settle(cfg: Config, s: SubGame, r: TurnResult): (SubGame, Finish) {
    match r
    case Ended(result) => Finalize(cfg, s, result)
    case Continue => Abort(cfg, s, "turn cap exhausted before a natural sub-game outcome")
    case Raised(CancelledTask) =>
      var (t, finish) := Abort(cfg, s, "cancelled");
      (t, if finish.Escaped? then finish else Escaped(CancelledTask))
    case Raised(cause) => (s, Escaped(cause))
  }

  function RunSubGame(cfg: Config, s: SubGame, inputs: Inputs, maxTurns: Option<int>, bootstrap: bool)
    : (SubGame, Finish)
  {
    match if bootstrap then FireAll(s, LIFECYCLE_TO_WAITING) else Go(s)
    case Stop(t, r) => (t, Escaped(IllegalTransition))
    case Go(w) =>
      var (t, r) := RunTurns(cfg, w, inputs, 0, Cap(cfg, maxTurns));
      Settle(cfg, t, r)
  }

  // ----- As the program runs it -----

  class SubGameRuntime {
    const cfg: Config
    const state: SubGameState

    constructor (cfg: Config, number: nat, machine: L.PeerStateMachine)
      requires cfg.gridSize >= 1
      ensures this.cfg == cfg && state.machine == machine && fresh(state) && fresh(state.exchange)
      ensures state.View() == InitialState(cfg, number, machine.View())
    {
      this.cfg := cfg;
      state := new SubGameState(cfg, number, machine);
    }

    method FastForwardToWaiting() returns (ok: bool)
      modifies state.machine
      ensures var f := FireAll(old(state.View()), LIFECYCLE_TO_WAITING); state.View() == f.state && ok == f.Go?
    {
      hide Fire;
      ghost var target := FireAll(state.View(), LIFECYCLE_TO_WAITING);
      for i := 0 to |LIFECYCLE_TO_WAITING|
        invariant FireAll(state.View(), LIFECYCLE_TO_WAITING[i..]) == target
      {
        var kind := LIFECYCLE_TO_WAITING[i];
        assert LIFECYCLE_TO_WAITING[i..][1..] == LIFECYCLE_TO_WAITING[i + 1..];
        ok := state.FireEvent(kind, DetailOf(kind));
        if !ok {
          return;
        }
      }
      ok := true;
    }

    method FinalizeGame(result: Result) returns (finish: Finish)
      modifies state.machine
      ensures (state.View(), finish) == Finalize(cfg, old(state.View()), result)
    {
      hide Fire, HashesMatch, NoncesDistinct, MismatchedSteps, ReusedNonces, Comparable;
      var records := state.records;
      if state.machine.state.Error? {
        return Finished(Scored(cfg, state.View(), result, None));
      }
      ghost var before := state.View();
      var verdict, mismatched, reused := AuditSealedRecords(SealedList(records));
      var ok := state.FireEvent(L.BeginAudit, "");
      FireKeeps(before, L.BeginAudit, "");
      if !ok {
        return Escaped(IllegalTransition);
      }
      finish := Finished(Scored(cfg, state.View(), if verdict.Verified? then result else TechnicalLoss, Some(verdict)));
    }

    method AbortGame(reason: string) returns (finish: Finish)
      modifies state.machine
      ensures (state.View(), finish) == Abort(cfg, old(state.View()), reason)
    {
      hide Fire, Finalize;
      if !state.machine.state.Error? {
        var ok := state.FireEvent(L.ErrorOccurred, reason);
        if !ok {
          return Escaped(IllegalTransition);
        }
      }
      finish := FinalizeGame(TechnicalLoss);
    }

    /** What follows the last turn: an outcome, an exception, or the exhausted cap. */
    method SettleGame(r: TurnResult) returns (finish: Finish)
      modifies state.machine
      ensures (state.View(), finish) == Settle(cfg, old(state.View()), r)
    {
      hide Finalize, Abort;
      if r.Ended? {
        finish := FinalizeGame(r.result);
      } else if r == Raised(CancelledTask) {
        finish := AbortGame("cancelled");
        if finish.Finished? {
          finish := Escaped(CancelledTask);
        }
      } else if r.Raised? {
        finish := Escaped(r.cause);
      } else {
        finish := AbortGame("turn cap exhausted before a natural sub-game outcome");
      }
    }

    /** The loop over turns, left by the first turn that does not simply go on. */
    method Run(inputs: Inputs, maxTurns: Option<int>, bootstrap: bool) returns (finish: Finish)
      modifies state, state.machine, state.exchange
      ensures (state.View(), finish) == RunSubGame(cfg, old(state.View()), inputs, maxTurns, bootstrap)
    {
      hide FireAll, Settle, Turn, Fire;
      if bootstrap {
        var ok := FastForwardToWaiting();
        if !ok {
          return Escaped(IllegalTransition);
        }
      }
      var cap := Cap(cfg, maxTurns);
      ghost var target := RunTurns(cfg, state.View(), inputs, 0, cap);
      var i: nat := 0;
      var r := Continue;
      while i < cap && r.Continue?
        invariant r.Continue? ==> RunTurns(cfg, state.View(), inputs, i, cap) == target
        invariant !r.Continue? ==> (state.View(), r) == target
        decreases cap - i
      {
        r := state.RunTurn(cfg, inputs(i));
        i := i + 1;
      }
      finish := SettleGame(r);
    }
  }

  // ----- What every sub-game keeps -----

  lemma FinalizeFacts(cfg: Config, s: SubGame, result: Result)
    requires Traced(s, L.SubGameOver) || (Traced(s, L.Error) && result.TechnicalLoss?)
    ensures var (t, finish) := Finalize(cfg, s, result);
            && finish.Finished? && Traced(t, if s.machine.state.Error? then L.Error else L.Auditing)
            && t.records == s.records
            && finish.run == (if s.machine.state.Error? then Scored(cfg, s, TechnicalLoss, None)
                              else var audit := AuditVerdict(s.records);
                                   Scored(cfg, s, if audit.Verified? then result else TechnicalLoss, Some(audit)))
  {
    hide AuditVerdict, L.Explained, L.Clean;
    FireFacts(s, L.BeginAudit, "");
  }

  lemma AbortFacts(cfg: Config, s: SubGame, reason: string)
    requires Traced(s, L.Waiting) || Traced(s, L.WaitingForAck)
    ensures var (t, finish) := Abort(cfg, s, reason);
            && finish == Finished(Scored(cfg, s, TechnicalLoss, None)) && Traced(t, L.Error)
  {
    hide L.Explained, L.Clean;
    FireFacts(s, L.ErrorOccurred, reason);
  }

  /** The record hashes of a lawful run always match, so its audit asks only for distinct nonces. */
  lemma LawfulAudit(cfg: Config, number: nat, records: seq<OwnRecord>, inputs: Inputs)
    requires Lawful(cfg, number, records, inputs)
    ensures HashesMatch(SealedList(records))
    ensures AuditVerdict(records).Verified? <==>
              forall i, j :: 0 <= i < j < |records| ==> inputs(i).nonce != inputs(j).nonce
  {
    hide CommitHash, BarriersBefore, FieldAfter;
    forall i | 0 <= i < |records|
      ensures CommitHash(SealedList(records)[i].payload) == SealedList(records)[i].commitHash
      ensures SealedList(records)[i].payload.nonce == Str(inputs(i).nonce)
    {
      assert LawfulRecord(cfg, number, records, inputs, i);
    }
    if NoncesDistinct(SealedList(records)) {
      forall i, j | 0 <= i < j < |records| ensures inputs(i).nonce != inputs(j).nonce {
        assert Comparable(SealedList(records)[i].payload.nonce) != Comparable(SealedList(records)[j].payload.nonce);
      }
    }
  }

  /** The nonces of the first `n` turns are pairwise different. */
  ghost predicate FreshNonces(inputs: Inputs, n: nat) {
    forall i, j :: 0 <= i < j < n ==> inputs(i).nonce != inputs(j).nonce
  }

  /** A sub-game's outcome, whatever happened: lawful records, the score of its result, and an audit
      that passed exactly when no nonce was repeated; a game without a passed audit is a loss. */
  ghost predicate SoundRun(cfg: Config, number: nat, inputs: Inputs, run: RunResult) {
    && Lawful(cfg, number, run.records, inputs)
    && (run.police, run.thief) == Score(run.result, cfg.scoring)
    && (run.audit.Some? ==> (run.audit.value.Verified? <==> FreshNonces(inputs, |run.records|)))
    && (run.audit != Some(Verified) ==> run.result.TechnicalLoss?)
  }

  /** The machine is left in ERROR, without an audit, or in AUDITING, with one. */
  ghost predicate Sound(cfg: Config, number: nat, inputs: Inputs, m: L.Machine, run: RunResult) {
    && SoundRun(cfg, number, inputs, run)
    && (m.state.Error? || m.state.Auditing?)
    && (m.state.Error? <==> run.audit.None?)
  }

  lemma ScoredIsSound(cfg: Config, s: SubGame, inputs: Inputs, result: Result)
    requires Lawful(cfg, s.number, s.records, inputs)
    ensures SoundRun(cfg, s.number, inputs, Scored(cfg, s, TechnicalLoss, None))
    ensures var audit := AuditVerdict(s.records);
            SoundRun(cfg, s.number, inputs,
                     Scored(cfg, s, if audit.Verified? then result else TechnicalLoss, Some(audit)))
  {
    hide AuditVerdict, Lawful, HashesMatch, NoncesDistinct, Score, SealedList;
    LawfulAudit(cfg, s.number, s.records, inputs);
  }

  /** A cancelled game is forced into ERROR before the cancellation goes on; any other exception leaves
      the machine where the reveal was being verified. */
  function StateAfterEscape(c: Cause): L.PeerState {
    if c.CancelledTask? then L.Error else L.Verifying
  }

  lemma SettleFacts(cfg: Config, s: SubGame, inputs: Inputs, r: TurnResult)
    requires Traced(s, ExitState(r)) && Lawful(cfg, s.number, s.records, inputs)
    requires r.Raised? ==> FromOutside(r.cause)
    ensures var (t, finish) := Settle(cfg, s, r);
            && L.Clean(t.machine) && L.Explained(L.Initializing, t.machine)
            && (finish.Escaped? <==> r.Raised?)
            && (finish.Escaped? ==> finish.cause == r.cause && t.machine.state == StateAfterEscape(r.cause))
            && (r.Continue? ==> finish.run == Scored(cfg, s, TechnicalLoss, None))
            && (finish.Finished? ==>
                  Sound(cfg, s.number, inputs, t.machine, finish.run) && finish.run.records == s.records)
  {
    hide L.Explained, L.Clean, AuditVerdict, Finalize, Abort, Lawful, SoundRun;
    match r {
      case Ended(result) =>
        FinalizeFacts(cfg, s, result);
        ScoredIsSound(cfg, s, inputs, result);
      case Continue =>
        AbortFacts(cfg, s, "turn cap exhausted before a natural sub-game outcome");
        ScoredIsSound(cfg, s, inputs, TechnicalLoss);
      case Raised(CancelledTask) => AbortFacts(cfg, s, "cancelled");
      case Raised(_) =>
    }
  }

  /** Waiting for its first turn, with a history that explains it. */
  ghost predicate AtRest(m: L.Machine) {
    m.state.Waiting? && L.Clean(m) && L.Explained(L.Initializing, m)
  }

  /** The machine on which a sub-game may start, with or without the bootstrap events. */
  ghost predicate MayStart(m: L.Machine, bootstrap: bool) {
    if bootstrap then m == L.FRESH_MACHINE else AtRest(m)
  }

  lemma BootstrapReachesWaiting(cfg: Config, number: nat, m: L.Machine, bootstrap: bool)
    requires cfg.gridSize >= 1 && MayStart(m, bootstrap)
    ensures var s := InitialState(cfg, number, m);
            var f := if bootstrap then FireAll(s, LIFECYCLE_TO_WAITING) else Go(s);
            f.Go? && AtRest(f.state.machine) && f.state == InitialState(cfg, number, f.state.machine)
  {
    hide L.Explained, L.Clean, Fire, FireAll, InitialState, LIFECYCLE_TO_WAITING;
    InitialMachine(cfg, number, m);
    if bootstrap {
      FreshIsExplained();
      BootstrapFrom(InitialState(cfg, number, m));
      InitialOnMachine(cfg, number, m, FireAll(InitialState(cfg, number, m), LIFECYCLE_TO_WAITING).state.machine);
    }
  }

  lemma InitialMachine(cfg: Config, number: nat, m: L.Machine)
    requires cfg.gridSize >= 1
    ensures InitialState(cfg, number, m).machine == m
  {
  }

  lemma InitialOnMachine(cfg: Config, number: nat, m: L.Machine, m': L.Machine)
    requires cfg.gridSize >= 1
    ensures InitialState(cfg, number, m).(machine := m') == InitialState(cfg, number, m')
  {
  }

  lemma BootstrapFrom(s: SubGame)
    requires Traced(s, L.Initializing)
    ensures var f := FireAll(s, LIFECYCLE_TO_WAITING);
            f.Go? && Traced(f.state, L.Waiting) && f.state == s.(machine := f.state.machine)
  {
    hide L.Explained, L.Clean, Fire, Traced;
    var kinds := LIFECYCLE_TO_WAITING;
    BootstrapStep(s, L.ServerStarted, L.Initializing, L.ServerReady);
    var a := Fire(s, L.ServerStarted, "").state;
    BootstrapStep(a, L.BeginNegotiation, L.ServerReady, L.Negotiating);
    var b := Fire(a, L.BeginNegotiation, "").state;
    BootstrapStep(b, L.TermsSigned, L.Negotiating, L.Signed);
    var c := Fire(b, L.TermsSigned, "config_sha256").state;
    BootstrapStep(c, L.SubGameStart, L.Signed, L.Waiting);
    var d := Fire(c, L.SubGameStart, "").state;
    assert kinds[1..] == [L.BeginNegotiation, L.TermsSigned, L.SubGameStart];
    assert kinds[1..][1..] == [L.TermsSigned, L.SubGameStart];
    assert kinds[1..][1..][1..] == [L.SubGameStart];
    assert FireAll(c, kinds[1..][1..][1..]) == Go(d);
    assert FireAll(b, kinds[1..][1..]) == Go(d);
    assert FireAll(a, kinds[1..]) == Go(d);
  }

  lemma BootstrapStep(s: SubGame, kind: L.EventKind, source: L.PeerState, target: L.PeerState)
    requires Traced(s, source) && L.Resolve(source, L.Event(kind, DetailOf(kind))) == Some(target)
    ensures var f := Fire(s, kind, DetailOf(kind));
            f.Go? && Traced(f.state, target) && f.state == s.(machine := f.state.machine)
  {
    hide L.Explained, L.Clean;
    FireFacts(s, kind, DetailOf(kind));
  }

  lemma FreshIsExplained()
    ensures L.Explained(L.Initializing, L.FRESH_MACHINE) && L.Clean(L.FRESH_MACHINE)
  {
  }

  /** Every sub-game that may start: no lifecycle event and no commit, acknowledge or reveal is ever
      refused, and it ends soundly, unless it is cancelled, a barrier falls on the chosen cell, or a
      reveal cannot be read; a cancellation leaves the machine in ERROR, the others in VERIFYING. */
  lemma SubGameIsSound(cfg: Config, number: nat, m: L.Machine, inputs: Inputs, maxTurns: Option<int>, bootstrap: bool)
    requires cfg.Valid() && MayStart(m, bootstrap)
    ensures var (t, finish) := RunSubGame(cfg, InitialState(cfg, number, m), inputs, maxTurns, bootstrap);
            && L.Clean(t.machine) && L.Explained(L.Initializing, t.machine)
            && (finish.Escaped? ==> FromOutside(finish.cause) && t.machine.state == StateAfterEscape(finish.cause))
            && (finish.Finished? ==> Sound(cfg, number, inputs, t.machine, finish.run))
  {
    hide L.Explained, L.Clean, FireAll, RunTurns, Settle, Lawful, InitialState;
    BootstrapReachesWaiting(cfg, number, m, bootstrap);
    var s := InitialState(cfg, number, m);
    var f := if bootstrap then FireAll(s, LIFECYCLE_TO_WAITING) else Go(s);
    InitialIsInSync(cfg, number, f.state.machine, inputs);
    InitialNumber(cfg, number, f.state.machine);
    RunsAreLawful(cfg, f.state, inputs, Cap(cfg, maxTurns));
    var (t, r) := RunTurns(cfg, f.state, inputs, 0, Cap(cfg, maxTurns));
    RunKeepsNumber(cfg, f.state, inputs, 0, Cap(cfg, maxTurns));
    SettleFacts(cfg, t, inputs, r);
  }

  /** A run, with or without the bootstrap events, is the turn loop from a rested machine. */
  lemma RunIsTheLoop(cfg: Config, number: nat, m: L.Machine, inputs: Inputs, maxTurns: Option<int>, bootstrap: bool)
    returns (rested: L.Machine)
    requires cfg.gridSize >= 1 && MayStart(m, bootstrap)
    ensures AtRest(rested)
    ensures var (t, r) := RunTurns(cfg, InitialState(cfg, number, rested), inputs, 0, Cap(cfg, maxTurns));
            RunSubGame(cfg, InitialState(cfg, number, m), inputs, maxTurns, bootstrap) == Settle(cfg, t, r)
  {
    hide RunTurns, Settle, FireAll, AtRest, InitialState;
    BootstrapReachesWaiting(cfg, number, m, bootstrap);
    var s := InitialState(cfg, number, m);
    rested := (if bootstrap then FireAll(s, LIFECYCLE_TO_WAITING) else Go(s)).state.machine;
  }

  /** A game whose cap runs out is a technical loss with one record for every turn, and is not audited. */
  lemma ExhaustedCapIsALoss(cfg: Config, number: nat, m: L.Machine, inputs: Inputs, cap: nat)
    requires cfg.Valid() && AtRest(m)
    requires RunTurns(cfg, InitialState(cfg, number, m), inputs, 0, cap).1.Continue?
    ensures var (t, finish) := RunSubGame(cfg, InitialState(cfg, number, m), inputs, Some(cap), false);
            && |t.records| == cap && t.machine.state.Error?
            && finish == Finished(RunResult(TechnicalLoss, t.records, None, cfg.scoring.technicalLoss,
                                            cfg.scoring.technicalLoss))
  {
    hide L.Explained, L.Clean, RunTurns, Settle, Lawful, InitialState, Finalize;
    var s := InitialState(cfg, number, m);
    InitialIsInSync(cfg, number, m, inputs);
    InitialNumber(cfg, number, m);
    RunsAreLawful(cfg, s, inputs, cap);
    ContinuedRun(cfg, s, inputs, cap);
    var (t, r) := RunTurns(cfg, s, inputs, 0, cap);
    CapFacts(cfg, t);
  }

  lemma CapFacts(cfg: Config, s: SubGame)
    requires Traced(s, L.Waiting)
    ensures var (t, finish) := Settle(cfg, s, Continue);
            && t.records == s.records && t.machine.state.Error?
            && finish == Finished(RunResult(TechnicalLoss, s.records, None, cfg.scoring.technicalLoss,
                                            cfg.scoring.technicalLoss))
  {
    hide L.Explained, L.Clean;
    AbortFacts(cfg, s, "turn cap exhausted before a natural sub-game outcome");
  }

  /** The complete outcome of a game without a failed delivery or a repeated nonce, in terms of what
      the first turn to meet anything meets. */
  ghost predicate GameDecidedBy(cfg: Config, inputs: Inputs, records: seq<OwnRecord>, finish: Finish, k: nat) {
    var n, score := |records|, cfg.scoring;
    && (finish == Finished(RunResult(Capture, records, Some(Verified), score.captureCop, score.captureThief))
        && n == k + 2
        <==> FirstMeets(cfg, records, inputs, k, Hit))
    && (finish == Finished(RunResult(Survival, records, Some(Verified), score.survivalCop, score.survivalThief))
        <==> n == cfg.threshold && QuietUpTo(cfg, records, inputs, n))
    && (finish == Finished(RunResult(TechnicalLoss, records, None, score.technicalLoss, score.technicalLoss))
        && n == k + 1
        <==> FirstMeets(cfg, records, inputs, k, Keyless))
    && (finish == Escaped(Cause.IllegalAction) && n == k + 1 <==> FirstMeets(cfg, records, inputs, k, Blocked))
    && (finish == Escaped(MalformedEvidence) && n == k + 1 <==> FirstMeets(cfg, records, inputs, k, Garbled))
    && (finish.Escaped? ==> finish.cause == Cause.IllegalAction || finish.cause == MalformedEvidence)
  }

  /** The whole game under the default cap, with or without the bootstrap, when every delivery
      succeeds and no nonce is repeated: a verified capture with k+2 records if turn k is the first
      to meet the thief and it is a hit, a verified survival with `threshold` records if no turn
      meets it, and otherwise the technical loss or the exception of the first encounter. The cap
      never runs out. */
  lemma DeliveredGameIsDecided(cfg: Config, number: nat, m: L.Machine, inputs: Inputs, bootstrap: bool, k: nat)
    requires cfg.Valid() && MayStart(m, bootstrap)
    requires AllDelivered(inputs, cfg.threshold + 1) && FreshNonces(inputs, cfg.threshold + 1)
    ensures var (t, finish) := RunSubGame(cfg, InitialState(cfg, number, m), inputs, None, bootstrap);
            GameDecidedBy(cfg, inputs, t.records, finish, k)
  {
    hide RunTurns, RunSubGame, InitialState, Settle, AllDelivered, FreshNonces, GameDecidedBy, MayStart, AtRest,
      FireAll;
    var rested := RunIsTheLoop(cfg, number, m, inputs, None, bootstrap);
    LoopIsDecided(cfg, number, rested, inputs, k);
  }

  lemma LoopIsDecided(cfg: Config, number: nat, m: L.Machine, inputs: Inputs, k: nat)
    requires cfg.Valid() && AtRest(m)
    requires AllDelivered(inputs, cfg.threshold + 1) && FreshNonces(inputs, cfg.threshold + 1)
    ensures var (t, r) := RunTurns(cfg, InitialState(cfg, number, m), inputs, 0, cfg.threshold + 1);
            var (u, finish) := Settle(cfg, t, r);
            GameDecidedBy(cfg, inputs, u.records, finish, k)
  {
    hide RunTurns, Lawful, InitialState, L.Clean, L.Explained, DecidedBy, Settle, GameDecidedBy, Traced, FreshNonces,
      InSync, AuditVerdict, ExitState;
    var s := InitialState(cfg, number, m);
    OutcomeIsDecidedByReveals(cfg, number, m, inputs, k);
    InitialIsInSync(cfg, number, m, inputs);
    InitialNumber(cfg, number, m);
    RunsAreLawful(cfg, s, inputs, cfg.threshold + 1);
    RecordsWithinCap(cfg, s, inputs, cfg.threshold + 1);
    var (t, r) := RunTurns(cfg, s, inputs, 0, cfg.threshold + 1);
    RunKeepsNumber(cfg, s, inputs, 0, cfg.threshold + 1);
    FreshAudit(cfg, number, t.records, inputs, cfg.threshold + 1);
    SettledByOutcome(cfg, inputs, t, r, k);
  }

  lemma FreshAudit(cfg: Config, number: nat, records: seq<OwnRecord>, inputs: Inputs, n: nat)
    requires Lawful(cfg, number, records, inputs) && FreshNonces(inputs, n) && |records| <= n
    ensures AuditVerdict(records).Verified?
  {
    hide Lawful, AuditVerdict, FreshNonces;
    LawfulAudit(cfg, number, records, inputs);
    FewerNonces(inputs, |records|, n);
  }

  lemma FewerNonces(inputs: Inputs, n: nat, m: nat)
    requires FreshNonces(inputs, m) && n <= m
    ensures forall i, j :: 0 <= i < j < n ==> inputs(i).nonce != inputs(j).nonce
  {
  }

  lemma SettledByOutcome(cfg: Config, inputs: Inputs, t: SubGame, r: TurnResult, k: nat)
    requires Traced(t, ExitState(r)) && DecidedBy(cfg, inputs, t.records, r, k) && AuditVerdict(t.records).Verified?
    ensures var (u, finish) := Settle(cfg, t, r);
            u.records == t.records && GameDecidedBy(cfg, inputs, t.records, finish, k)
  {
    hide L.Clean, L.Explained, AuditVerdict, Finalize, FirstMeets, QuietUpTo;
    if r.Ended? {
      FinalizeFacts(cfg, t, r.result);
    }
  }

  lemma InitialNumber(cfg: Config, number: nat, m: L.Machine)
    requires cfg.gridSize >= 1
    ensures InitialState(cfg, number, m).number == number && InitialState(cfg, number, m).step == 0
  {
  }

  lemma PrepareKeepsNumber(cfg: Config, s: SubGame, input: TurnInput)
    ensures Prepare(cfg, s, input).state.number == s.number
  {
    hide L.Resolve, X.Apply, Draft, UpdateBelief, ApplyTurn;
  }

  lemma MoveKeepsNumber(cfg: Config, s: SubGame, direction: Direction, captured: bool)
    ensures MoveOn(cfg, s, direction, captured).0.number == s.number
  {
    hide L.Resolve, ApplyMove;
  }

  lemma ResolveKeepsNumber(cfg: Config, s: SubGame, direction: Direction, opp: OpponentTurn)
    ensures ResolveAndAdvance(cfg, s, direction, opp).0.number == s.number
  {
    hide L.Resolve, MoveOn, Absorb;
    AbsorbKeeps(cfg, s, opp);
    var known := Absorb(cfg, s, opp).state;
    var resolution := ResolveCapture(s.position, opp.claim, opp.barrier);
    if resolution.Resolution? {
      MoveKeepsNumber(cfg, known.(pending := if resolution.captured then Some(true) else resolution.response),
                      direction, resolution.captured);
    }
  }

  lemma TurnKeepsNumber(cfg: Config, s: SubGame, input: TurnInput)
    ensures Turn(cfg, s, input).0.number == s.number
  {
    hide L.Resolve, Prepare, Deliver, Draft, ResolveAndAdvance, Choice;
    PrepareKeepsNumber(cfg, s, input);
    var p := Prepare(cfg, s, input).state;
    DeliverKeeps(cfg, p, input);
    ResolveKeepsNumber(cfg, Deliver(cfg, p, input).state, Choice(Deliver(cfg, p, input).state, input), Shown(input));
  }

  lemma {:induction false} RunKeepsNumber(cfg: Config, s: SubGame, inputs: Inputs, i: nat, cap: int)
    ensures RunTurns(cfg, s, inputs, i, cap).0.number == s.number
    decreases cap - i
  {
    hide Turn;
    if i < cap {
      TurnKeepsNumber(cfg, s, inputs(i));
      var (next, r) := Turn(cfg, s, inputs(i));
      if r.Continue? {
        RunKeepsNumber(cfg, next, inputs, i + 1, cap);
      }
    }
  }
}
