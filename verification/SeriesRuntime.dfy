/** A whole series of sub-games on one shared machine (services/series_runtime.py). */
module SeriesRuntime {
  import opened Options
  import opened Sealing
  import opened TurnEngine
  import opened TurnFacts
  import opened SubGameRuns
  import R = SubGameRuntime
  import L = Lifecycle

  datatype GameRecord = GameRecord(number: nat, result: Result, police: int, thief: int, steps: nat,
                                   auditVerified: bool)

  datatype Reason = Completed | TechnicalLossEndedSeries

  datatype AgreementStatus = Agreed | DisputedZeroed | UnverifiedSelfPlay

  datatype Series = Series(games: seq<GameRecord>, police: int, thief: int, reason: Reason, finalState: L.PeerState,
                           runs: seq<R.RunResult>, agreed: bool, status: AgreementStatus)

  datatype Conclusion = Played(series: Series) | Aborted(cause: Cause)

  /** The inputs of every game, by its zero-based index. */
  type GameInputs = nat -> Inputs

  function Summary(number: nat, run: R.RunResult): GameRecord {
    GameRecord(number, run.result, run.police, run.thief, |run.records|, run.audit == Some(Verified))
  }

  function PoliceSum(games: seq<GameRecord>): int {
    if games == [] then 0 else PoliceSum(games[..|games| - 1]) + games[|games| - 1].police
  }

  function ThiefSum(games: seq<GameRecord>): int {
    if games == [] then 0 else ThiefSum(games[..|games| - 1]) + games[|games| - 1].thief
  }

  function Totalled(games: seq<GameRecord>, runs: seq<R.RunResult>, reason: Reason, m: L.Machine): Series {
    Series(games, PoliceSum(games), ThiefSum(games), reason, m.state, runs, false, UnverifiedSelfPlay)
  }

  /** The last sub-game closes the series, an earlier one returns to WAITING. */
  function AfterGame(index: nat, numGames: int): L.Event {
    L.Event(if index == numGames - 1 then L.SeriesAuditDone else L.NextSubGame, "")
  }

  /** The loop over sub-games from `index` on, on a machine `m`, after `games` and `runs`. */
  function PlayFrom(cfg: Config, inputs: GameInputs, numGames: int, maxTurns: Option<int>, index: nat, m: L.Machine,
                    games: seq<GameRecord>, runs: seq<R.RunResult>): (L.Machine, Conclusion)
    requires cfg.gridSize >= 1
    decreases numGames - index
  {
    if index >= numGames then (m, Played(Totalled(games, runs, Completed, m)))
    else
      var (t, finish) := R.RunSubGame(cfg, InitialState(cfg, index + 1, m), inputs(index), maxTurns, index == 0);
      if finish.Escaped? then (t.machine, Aborted(finish.cause))
      else
        var games', runs' := games + [Summary(index + 1, finish.run)], runs + [finish.run];
        if t.machine.state.Error? then (t.machine, Played(Totalled(games', runs', TechnicalLossEndedSeries, t.machine)))
        else
          var after := t.machine.Apply(AfterGame(index, numGames));
          if !t.machine.Accepts(AfterGame(index, numGames)) then (after, Aborted(IllegalTransition))
          else PlayFrom(cfg, inputs, numGames, maxTurns, index + 1, after, games', runs')
  }

  /** `run_series` on a given machine. */
  function PlaySeries(cfg: Config, inputs: GameInputs, numGames: int, maxTurns: Option<int>, m: L.Machine)
    : (L.Machine, Conclusion)
    requires cfg.gridSize >= 1
  {
    PlayFrom(cfg, inputs, numGames, maxTurns, 0, m, [], [])
  }

  // ----- As the program runs it -----

  method SumScores(games: seq<GameRecord>) returns (police: int, thief: int)
    ensures police == PoliceSum(games) && thief == ThiefSum(games)
  {
    police, thief := 0, 0;
    for i := 0 to |games|
      invariant police == PoliceSum(games[..i]) && thief == ThiefSum(games[..i])
    {
      assert games[..i + 1][..i] == games[..i];
      police, thief := police + games[i].police, thief + games[i].thief;
    }
    assert games[..|games|] == games;
  }

  method AdvanceAfterSubGame(machine: L.PeerStateMachine, index: nat, numGames: int) returns (accepted: bool)
    modifies machine
    ensures machine.View() == old(machine.View()).Apply(AfterGame(index, numGames))
    ensures accepted == old(machine.View()).Accepts(AfterGame(index, numGames))
  {
    accepted := machine.Apply(AfterGame(index, numGames));
  }

  method RunSeries(cfg: Config, inputs: GameInputs, numGames: int, maxTurns: Option<int>, machine: L.PeerStateMachine)
    returns (conclusion: Conclusion)
    requires cfg.gridSize >= 1
    modifies machine
    ensures (machine.View(), conclusion) == PlaySeries(cfg, inputs, numGames, maxTurns, old(machine.View()))
  {
    hide R.RunSubGame, InitialState, L.Resolve, PoliceSum, ThiefSum;
    var games: seq<GameRecord>, runs: seq<R.RunResult>, reason := [], [], Completed;
    ghost var target := PlaySeries(cfg, inputs, numGames, maxTurns, machine.View());
    var index: nat := 0;
    while index < numGames
      invariant PlayFrom(cfg, inputs, numGames, maxTurns, index, machine.View(), games, runs) == target
      invariant reason == Completed
      decreases numGames - index
    {
      var runtime := new R.SubGameRuntime(cfg, index + 1, machine);
      var finish := runtime.Run(inputs(index), maxTurns, index == 0);
      if finish.Escaped? {
        return Aborted(finish.cause);
      }
      runs := runs + [finish.run];
      games := games + [Summary(index + 1, finish.run)];
      if machine.state.Error? {
        reason := TechnicalLossEndedSeries;
        break;
      }
      var accepted := AdvanceAfterSubGame(machine, index, numGames);
      if !accepted {
        return Aborted(IllegalTransition);
      }
      index := index + 1;
    }
    var police, thief := SumScores(games);
    conclusion := Played(Series(games, police, thief, reason, machine.state, runs, false, UnverifiedSelfPlay));
  }

  // ----- What every series keeps -----

  /** Games numbered from one, each the summary of a sound run of its own inputs. */
  ghost predicate Faithful(cfg: Config, inputs: GameInputs, games: seq<GameRecord>, runs: seq<R.RunResult>) {
    && |games| == |runs|
    && forall i :: 0 <= i < |games| ==>
         games[i] == Summary(i + 1, runs[i]) && R.SoundRun(cfg, i + 1, inputs(i), runs[i])
  }

  ghost predicate AllAudited(runs: seq<R.RunResult>, n: int)
    requires n <= |runs|
  {
    forall i :: 0 <= i < n ==> runs[i].audit.Some?
  }

  /** A legal end: the whole series, or a technical loss as its last game. */
  ghost predicate LegalEnd(numGames: int, m: L.Machine, s: Series) {
    var n := |s.runs|;
    && s.finalState == m.state
    && match s.reason
       case Completed => m.state.SeriesComplete? && n == numGames && AllAudited(s.runs, n)
       case TechnicalLossEndedSeries =>
         && m.state.Error? && 1 <= n <= numGames && AllAudited(s.runs, n - 1)
         && s.runs[n - 1].audit.None? && s.runs[n - 1].result.TechnicalLoss?
  }

  ghost predicate WellPlayed(cfg: Config, inputs: GameInputs, numGames: int, m: L.Machine, s: Series) {
    && Faithful(cfg, inputs, s.games, s.runs)
    && LegalEnd(numGames, m, s)
    && s.police == PoliceSum(s.games) && s.thief == ThiefSum(s.games)
    && !s.agreed && s.status.UnverifiedSelfPlay?
  }

  /** Where the machine stands between two sub-games. */
  ghost predicate Between(index: nat, numGames: int, m: L.Machine) {
    && index <= numGames && numGames >= 1
    && (index == 0 ==> m == L.FRESH_MACHINE)
    && (0 < index < numGames ==> R.AtRest(m))
    && (index == numGames ==> m.state.SeriesComplete? && L.Clean(m) && L.Explained(L.Initializing, m))
  }

  lemma FaithfulExtends(cfg: Config, inputs: GameInputs, games: seq<GameRecord>, runs: seq<R.RunResult>,
                        run: R.RunResult)
    requires Faithful(cfg, inputs, games, runs) && R.SoundRun(cfg, |games| + 1, inputs(|games|), run)
    ensures Faithful(cfg, inputs, games + [Summary(|games| + 1, run)], runs + [run])
  {
    hide R.SoundRun, Summary;
  }

  lemma FaithfulLengths(cfg: Config, inputs: GameInputs, games: seq<GameRecord>, runs: seq<R.RunResult>)
    requires Faithful(cfg, inputs, games, runs)
    ensures |games| == |runs|
  {
  }

  lemma UnauditedIsALoss(cfg: Config, number: nat, inputs: Inputs, run: R.RunResult)
    requires R.SoundRun(cfg, number, inputs, run) && run.audit.None?
    ensures run.result.TechnicalLoss?
  {
  }

  /** After a game that left the machine in AUDITING the next event is accepted. */
  lemma NextIsBetween(index: nat, numGames: int, m: L.Machine)
    requires index < numGames && m.state.Auditing? && L.Clean(m) && L.Explained(L.Initializing, m)
    ensures m.Accepts(AfterGame(index, numGames)) && Between(index + 1, numGames, m.Apply(AfterGame(index, numGames)))
  {
    hide L.Explained;
    L.ApplyKeepsExplained(L.Initializing, m, AfterGame(index, numGames));
  }

  lemma {:induction false} PlayFromIsLegal(cfg: Config, inputs: GameInputs, numGames: int, maxTurns: Option<int>,
                                           index: nat,
                                           m: L.Machine, games: seq<GameRecord>, runs: seq<R.RunResult>)
    requires cfg.Valid() && Between(index, numGames, m)
    requires |games| == index && Faithful(cfg, inputs, games, runs) && AllAudited(runs, |runs|)
    ensures var (m', conclusion) := PlayFrom(cfg, inputs, numGames, maxTurns, index, m, games, runs);
            && L.Clean(m') && L.Explained(L.Initializing, m')
            && match conclusion
               case Aborted(cause) => FromOutside(cause)
               case Played(s) => WellPlayed(cfg, inputs, numGames, m', s)
    decreases numGames - index
  {
    hide L.Explained, L.Clean, R.RunSubGame, InitialState, Summary, PoliceSum, ThiefSum, R.SoundRun, L.Machine.Accepts,
      L.Machine.Apply, Faithful;
    FaithfulLengths(cfg, inputs, games, runs);
    if index < numGames {
      R.SubGameIsSound(cfg, index + 1, m, inputs(index), maxTurns, index == 0);
      var (t, finish) := R.RunSubGame(cfg, InitialState(cfg, index + 1, m), inputs(index), maxTurns, index == 0);
      if finish.Finished? {
        FaithfulExtends(cfg, inputs, games, runs, finish.run);
        if t.machine.state.Error? {
          UnauditedIsALoss(cfg, index + 1, inputs(index), finish.run);
        } else {
          NextIsBetween(index, numGames, t.machine);
          PlayFromIsLegal(cfg, inputs, numGames, maxTurns, index + 1, t.machine.Apply(AfterGame(index, numGames)),
                          games + [Summary(index + 1, finish.run)], runs + [finish.run]);
        }
      }
    }
  }

  /** Series legality: from a fresh machine and for at least one game, whatever the deliveries,
      reveals and turn caps, no lifecycle event and no commit, acknowledge or reveal is ever refused;
      the series ends complete, with a game for every number, or in ERROR with a technical loss as
      its last game, unless a cancellation, a barrier on the chosen cell or an unreadable reveal
      escapes; totals are the sums of the games; and the state is the fold of the accepted log. */
  lemma SeriesIsLegal(cfg: Config, inputs: GameInputs, numGames: int, maxTurns: Option<int>)
    requires cfg.Valid() && numGames >= 1
    ensures var (m, conclusion) := PlaySeries(cfg, inputs, numGames, maxTurns, L.FRESH_MACHINE);
            && L.Clean(m) && L.Explained(L.Initializing, m)
            && match conclusion
               case Aborted(cause) => FromOutside(cause)
               case Played(s) => WellPlayed(cfg, inputs, numGames, m, s)
  {
    PlayFromIsLegal(cfg, inputs, numGames, maxTurns, 0, L.FRESH_MACHINE, [], []);
  }
}
