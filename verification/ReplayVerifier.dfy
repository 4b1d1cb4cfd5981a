/** The artifacts of a series and their verification (services/artifact_builders.py,
    series_artifacts.py, replay_verifier.py, replay_checks.py). */
module ReplayVerifier {
  import opened Options
  import opened Json
  import opened Sealing
  import opened TurnEngine
  import opened SubGameRuns
  import R = SubGameRuntime
  import opened SeriesRuntime
  import opened Agreement
  import opened ReplayChecks
  import opened LogIntegrity
  import opened Router
  import M = Messages
  import L = Lifecycle

  datatype Terms = Terms(gridSize: int, scoring: Scoring)

  datatype ConfigArtifact = ConfigArtifact(gameUid: Option<string>, number: Option<int>, configHash: Option<string>,
                                           terms: Terms)

  datatype LogArtifact = LogArtifact(gameUid: Option<string>, number: Option<int>, steps: seq<Dict>, verdict: Verdict)

  datatype ResultEntry = ResultEntry(number: int, result: string, winner: Option<M.Role>, police: int, thief: int,
                                     steps: int, auditOk: bool)

  datatype ResultArtifact = ResultArtifact(gameUid: Option<string>, configHash: Option<string>,
                                           entries: seq<ResultEntry>, police: int, thief: int, status: string)

  /** `declaration` is the game uid a declaration carries, if there is a declaration. */
  datatype Bundle = Bundle(declaration: Option<Option<string>>, configs: seq<ConfigArtifact>, logs: seq<LogArtifact>,
                           result: Option<ResultArtifact>)

  // ----- Writing -----

  function StatusName(s: AgreementStatus): string {
    match s
    case Agreed => "agreed"
    case DisputedZeroed => "disputed_zeroed"
    case UnverifiedSelfPlay => "unverified_self_play"
  }

  const LOSS_REASON := "technical_loss_ended_series"

  function WinnerOf(r: Result): Option<M.Role> {
    match r case Capture => Some(M.Police) case Survival => Some(M.Thief) case TechnicalLoss => None
  }

  function EntryOf(g: GameRecord): ResultEntry {
    ResultEntry(g.number, ResultName(g.result), WinnerOf(g.result), g.police, g.thief, g.steps, g.auditVerified)
  }

  function ConfigOf(cfg: Config, g: GameRecord): ConfigArtifact {
    ConfigArtifact(Some(cfg.gameUid), Some(g.number), Some(cfg.configHash), Terms(cfg.gridSize, cfg.scoring))
  }

  function LogOf(cfg: Config, g: GameRecord, run: R.RunResult): LogArtifact {
    LogArtifact(Some(cfg.gameUid), Some(g.number), LogSteps(run.records), R.AuditVerdict(run.records))
  }

  function ResultOf(cfg: Config, s: Series): ResultArtifact {
    ResultArtifact(Some(cfg.gameUid), Some(cfg.configHash),
                   seq(|s.games|, i requires 0 <= i < |s.games| => EntryOf(s.games[i])),
                   s.police, s.thief, if s.reason.Completed? then StatusName(s.status) else LOSS_REASON)
  }

  /** One config and one log for every game played, one result, one declaration. */
  function BundleOf(cfg: Config, s: Series): Bundle
    requires |s.games| == |s.runs|
  {
    Bundle(Some(Some(cfg.gameUid)),
           seq(|s.games|, i requires 0 <= i < |s.games| => ConfigOf(cfg, s.games[i])),
           seq(|s.games|, i requires 0 <= i < |s.games| => LogOf(cfg, s.games[i], s.runs[i])),
           Some(ResultOf(cfg, s)))
  }

  /** The writer's loop over the games and their runs. */
  method WriteSeriesArtifacts(cfg: Config, s: Series) returns (b: Bundle)
    requires |s.games| == |s.runs|
    ensures b == BundleOf(cfg, s)
  {
    hide ConfigOf, LogOf, ResultOf, HashesMatch, NoncesDistinct, LogSteps, SealedList, MismatchedSteps, ReusedNonces;
    var configs: seq<ConfigArtifact>, logs: seq<LogArtifact> := [], [];
    for i := 0 to |s.games|
      invariant |configs| == i && forall k :: 0 <= k < i ==> configs[k] == ConfigOf(cfg, s.games[k])
      invariant |logs| == i && forall k :: 0 <= k < i ==> logs[k] == LogOf(cfg, s.games[k], s.runs[k])
    {
      configs := configs + [ConfigOf(cfg, s.games[i])];
      var verdict, mismatched, reused := AuditSealedRecords(SealedList(s.runs[i].records));
      var log := LogArtifact(Some(cfg.gameUid), Some(s.games[i].number), LogSteps(s.runs[i].records), verdict);
      LogIs(cfg, s.games[i], s.runs[i], verdict);
      logs := logs + [log];
    }
    assert configs == BundleOf(cfg, s).configs && logs == BundleOf(cfg, s).logs;
    b := Bundle(Some(Some(cfg.gameUid)), configs, logs, Some(ResultOf(cfg, s)));
  }

  lemma LogIs(cfg: Config, g: GameRecord, run: R.RunResult, verdict: Verdict)
    requires verdict.Verified? <==> HashesMatch(SealedList(run.records)) && NoncesDistinct(SealedList(run.records))
    ensures LogOf(cfg, g, run) == LogArtifact(Some(cfg.gameUid), Some(g.number), LogSteps(run.records), verdict)
  {
    hide HashesMatch, NoncesDistinct;
  }

  // ----- What a verified bundle is -----

  function ParseResult(name: string): Option<Result> {
    if name == "capture" then Some(Capture)
    else if name == "survival" then Some(Survival)
    else if name == "technical_loss" then Some(TechnicalLoss)
    else None
  }

  function Uids(b: Bundle): seq<Option<string>> {
    seq(|b.configs|, i requires 0 <= i < |b.configs| => b.configs[i].gameUid)
    + seq(|b.logs|, i requires 0 <= i < |b.logs| => b.logs[i].gameUid)
    + (if b.declaration.Some? then [b.declaration.value] else [])
    + (if b.result.Some? then [b.result.value.gameUid] else [])
  }

  predicate OneUid(uids: seq<Option<string>>) {
    uids != [] && forall i :: 0 <= i < |uids| ==> uids[i].Some? && uids[i] == uids[0]
  }

  predicate HashesAgree(configs: seq<ConfigArtifact>, result: ResultArtifact) {
    forall i :: 0 <= i < |configs| ==> configs[i].configHash == result.configHash
  }

  predicate Distinct(numbers: seq<Option<int>>) {
    forall i, j :: 0 <= i < j < |numbers| ==> numbers[i] != numbers[j]
  }

  function ConfigNumbers(configs: seq<ConfigArtifact>): seq<Option<int>> {
    seq(|configs|, i requires 0 <= i < |configs| => configs[i].number)
  }

  function LogNumbers(logs: seq<LogArtifact>): seq<Option<int>> {
    seq(|logs|, i requires 0 <= i < |logs| => logs[i].number)
  }

  predicate StepCountsAgree(logs: seq<LogArtifact>, e: ResultEntry) {
    forall j :: 0 <= j < |logs| && logs[j].number == Some(e.number) ==> |logs[j].steps| == e.steps
  }

  predicate EntryScored(e: ResultEntry, scoring: Scoring) {
    ParseResult(e.result).Some? && (e.police, e.thief) == Score(ParseResult(e.result).value, scoring)
  }

  function PoliceTotal(entries: seq<ResultEntry>): int {
    if entries == [] then 0 else PoliceTotal(entries[..|entries| - 1]) + entries[|entries| - 1].police
  }

  function ThiefTotal(entries: seq<ResultEntry>): int {
    if entries == [] then 0 else ThiefTotal(entries[..|entries| - 1]) + entries[|entries| - 1].thief
  }

  /** A disputed result reports zero, any other the sums. */
  predicate TotalsRight(r: ResultArtifact) {
    (r.police, r.thief)
    == if r.status == "disputed_zeroed" then (0, 0) else (PoliceTotal(r.entries), ThiefTotal(r.entries))
  }

  predicate ScoresRight(r: ResultArtifact, scoring: Scoring) {
    (forall i :: 0 <= i < |r.entries| ==> EntryScored(r.entries[i], scoring)) && TotalsRight(r)
  }

  predicate Complete(b: Bundle) {
    b.result.Some? && b.configs != [] && b.logs != []
  }

  predicate Consistent(b: Bundle)
    requires Complete(b)
  {
    var result := b.result.value;
    && OneUid(Uids(b)) && HashesAgree(b.configs, result)
    && |b.configs| == |b.logs| == |result.entries|
    && Distinct(ConfigNumbers(b.configs)) && Distinct(LogNumbers(b.logs))
    && forall i :: 0 <= i < |result.entries| ==> StepCountsAgree(b.logs, result.entries[i])
  }

  predicate VerifiedBundle(u: Unroll, b: Bundle) {
    && Complete(b) && Consistent(b)
    && (forall j :: 0 <= j < |b.logs| ==> LogAccepted(u, b.logs[j].steps, b.configs[0].terms.gridSize))
    && ScoresRight(b.result.value, b.configs[0].terms.scoring)
  }

  /** Nothing in the bundle makes the verifier raise. */
  predicate Checkable(u: Unroll, b: Bundle) {
    Complete(b) ==>
      && (forall j :: 0 <= j < |b.logs| ==> LogCheckable(u, b.logs[j].steps, b.configs[0].terms.gridSize))
      && forall i :: 0 <= i < |b.result.value.entries| ==> ParseResult(b.result.value.entries[i].result).Some?
  }

  // ----- Verifying -----

  datatype Defect =
    | MissingArtifacts | GameUids | ConfigHashes | Counts | DuplicateConfigs | DuplicateLogs | StepCount(number: int)
    | InLog(log: nat, finding: Finding) | WrongScore(number: int) | DisputedNotZero | WrongTotals

  method CheckGameUid(b: Bundle) returns (ok: bool)
    ensures ok <==> OneUid(Uids(b))
  {
    var all := Uids(b);
    var seen: set<Option<string>> := {};
    for i := 0 to |all|
      invariant seen == set k | 0 <= k < i :: all[k]
    {
      seen := seen + {all[i]};
    }
    assert all != [] ==> all[0] in seen;
    assert OneUid(all) ==> seen == {all[0]};
    assert forall k :: 0 <= k < |all| ==> all[k] in seen;
    ok := |seen| == 1 && None !in seen;
    if ok {
      SingletonIsAll(seen, all[0]);
    }
  }

  lemma SingletonIsAll<T>(s: set<T>, x: T)
    requires |s| == 1 && x in s
    ensures s == {x}
  {
    assert |s - {x}| == 0;
  }

  method CheckNoDuplicates(numbers: seq<Option<int>>) returns (ok: bool)
    ensures ok <==> Distinct(numbers)
  {
    for i := 0 to |numbers|
      invariant Distinct(numbers[..i])
    {
      if numbers[i] in numbers[..i] {
        return false;
      }
    }
    assert numbers[..|numbers|] == numbers;
    ok := true;
  }

  /** The number-keyed lookup keeps the last log of a number. */
  method CheckStepCounts(logs: seq<LogArtifact>, entries: seq<ResultEntry>) returns (list: seq<Defect>)
    ensures (forall i :: 0 <= i < |entries| ==> StepCountsAgree(logs, entries[i])) ==> list == []
    ensures list == [] && Distinct(LogNumbers(logs)) ==>
              forall i :: 0 <= i < |entries| ==> StepCountsAgree(logs, entries[i])
  {
    var byNumber: map<Option<int>, LogArtifact> := map[];
    for j := 0 to |logs|
      invariant forall n :: n in byNumber ==> exists k :: 0 <= k < j && logs[k].number == n && byNumber[n] == logs[k]
      invariant forall k :: 0 <= k < j ==> logs[k].number in byNumber
    {
      byNumber := byNumber[logs[j].number := logs[j]];
    }
    list := [];
    for i := 0 to |entries|
      invariant (forall k :: 0 <= k < |entries| ==> StepCountsAgree(logs, entries[k])) ==> list == []
      invariant list == [] && Distinct(LogNumbers(logs)) ==>
                  forall k :: 0 <= k < i ==> StepCountsAgree(logs, entries[k])
    {
      var e := entries[i];
      if Some(e.number) in byNumber && |byNumber[Some(e.number)].steps| != e.steps {
        list := list + [StepCount(e.number)];
      } else if Distinct(LogNumbers(logs)) {
        forall j | 0 <= j < |logs| && logs[j].number == Some(e.number) ensures |logs[j].steps| == e.steps {
          var k :| 0 <= k < |logs| && logs[k].number == Some(e.number) && byNumber[Some(e.number)] == logs[k];
          assert LogNumbers(logs)[j] == LogNumbers(logs)[k];
        }
      }
    }
  }

  /** `verify_scores`; an unknown result name raises. */
  method VerifyScores(r: ResultArtifact, scoring: Scoring) returns (report: Report<Defect>)
    ensures report.Crashed? <==> exists i :: 0 <= i < |r.entries| && ParseResult(r.entries[i].result).None?
    ensures report == Findings([]) <==> ScoresRight(r, scoring)
  {
    hide ParseResult, Score;
    var list: seq<Defect>, policeSum, thiefSum := [], 0, 0;
    for i := 0 to |r.entries|
      invariant forall k :: 0 <= k < i ==> ParseResult(r.entries[k].result).Some?
      invariant list == [] <==> forall k :: 0 <= k < i ==> EntryScored(r.entries[k], scoring)
      invariant policeSum == PoliceTotal(r.entries[..i]) && thiefSum == ThiefTotal(r.entries[..i])
    {
      var e := r.entries[i];
      assert r.entries[..i + 1][..i] == r.entries[..i];
      var outcome := ParseResult(e.result);
      if outcome.None? {
        return Crashed;
      }
      if (e.police, e.thief) != Score(outcome.value, scoring) {
        list := list + [WrongScore(e.number)];
      }
      policeSum, thiefSum := policeSum + e.police, thiefSum + e.thief;
    }
    assert r.entries[..|r.entries|] == r.entries;
    if r.status == "disputed_zeroed" {
      if (r.police, r.thief) != (0, 0) {
        list := list + [DisputedNotZero];
      }
    } else if (policeSum, thiefSum) != (r.police, r.thief) {
      list := list + [WrongTotals];
    }
    report := Findings(list);
  }

  method CheckConsistency(b: Bundle) returns (list: seq<Defect>)
    requires Complete(b)
    ensures list == [] <==> Consistent(b)
  {
    var result := b.result.value;
    list := [];
    var ok := CheckGameUid(b);
    if !ok {
      list := list + [GameUids];
    }
    if !HashesAgree(b.configs, result) {
      list := list + [ConfigHashes];
    }
    if !(|b.configs| == |b.logs| == |result.entries|) {
      list := list + [Counts];
    }
    ok := CheckNoDuplicates(ConfigNumbers(b.configs));
    if !ok {
      list := list + [DuplicateConfigs];
    }
    ok := CheckNoDuplicates(LogNumbers(b.logs));
    if !ok {
      list := list + [DuplicateLogs];
    }
    var counts := CheckStepCounts(b.logs, result.entries);
    list := list + counts;
  }

  method VerifyLogs(u: Unroll, logs: seq<LogArtifact>, gridSize: int) returns (report: Report<Defect>)
    ensures report.Crashed? <==> exists j :: 0 <= j < |logs| && !LogCheckable(u, logs[j].steps, gridSize)
    ensures report == Findings([]) <==> forall j :: 0 <= j < |logs| ==> LogAccepted(u, logs[j].steps, gridSize)
  {
    hide LogCheckable, LogAccepted;
    var list: seq<Defect> := [];
    for j := 0 to |logs|
      invariant forall k :: 0 <= k < j ==> LogCheckable(u, logs[k].steps, gridSize)
      invariant list == [] <==> forall k :: 0 <= k < j ==> LogAccepted(u, logs[k].steps, gridSize)
    {
      var found := VerifyLog(u, logs[j].steps, gridSize);
      if found.Crashed? {
        AcceptedIsCheckable(u, logs[j].steps, gridSize);
        return Crashed;
      }
      var defects := seq(|found.list|, i requires 0 <= i < |found.list| => InLog(j, found.list[i]));
      assert defects == [] <==> found.list == [];
      list := list + defects;
    }
    report := Findings(list);
  }

  /** `verify_replay`: it raises exactly on bundles that cannot be checked, and reports nothing
      exactly on those that are verified. */
  method VerifyReplay(u: Unroll, b: Bundle) returns (report: Report<Defect>)
    ensures report.Crashed? <==> !Checkable(u, b)
    ensures report == Findings([]) <==> VerifiedBundle(u, b)
  {
    hide LogCheckable, LogAccepted, Consistent;
    if !Complete(b) {
      return Findings([MissingArtifacts]);
    }
    var list := CheckConsistency(b);
    var terms := b.configs[0].terms;
    var inLogs := VerifyLogs(u, b.logs, terms.gridSize);
    if inLogs.Crashed? {
      return Crashed;
    }
    var scores := VerifyScores(b.result.value, terms.scoring);
    if scores.Crashed? {
      return Crashed;
    }
    report := Findings(list + inLogs.list + scores.list);
  }

  // ----- Completeness -----

  lemma EntrySums(games: seq<GameRecord>, entries: seq<ResultEntry>)
    requires |entries| == |games| && forall i :: 0 <= i < |games| ==> entries[i] == EntryOf(games[i])
    ensures PoliceTotal(entries) == PoliceSum(games) && ThiefTotal(entries) == ThiefSum(games)
  {
    if games != [] {
      EntrySums(games[..|games| - 1], entries[..|games| - 1]);
    }
  }

  lemma NamesParse(r: Result)
    ensures ParseResult(ResultName(r)) == Some(r)
  {
    assert "survival"[0] != "capture"[0] && "technical_loss"[0] != "capture"[0] && "technical_loss"[0] != "survival"[0];
  }

  lemma WrittenUids(cfg: Config, s: Series)
    requires |s.games| == |s.runs|
    ensures OneUid(Uids(BundleOf(cfg, s)))
  {
    hide LogSteps, EntryOf;
    var all := Uids(BundleOf(cfg, s));
    assert forall i :: 0 <= i < |all| ==> all[i] == Some(cfg.gameUid);
    assert all[|all| - 1] == Some(cfg.gameUid);
  }

  /** What was written is consistent. */
  lemma WrittenIsConsistent(cfg: Config, inputs: GameInputs, s: Series)
    requires s.games != [] && Faithful(cfg, inputs, s.games, s.runs)
    ensures Complete(BundleOf(cfg, s)) && Consistent(BundleOf(cfg, s))
  {
    hide R.SoundRun, LogSteps, EntryOf, Uids, OneUid, LogOf, ConfigOf, Distinct, Faithful;
    FaithfulLengths(cfg, inputs, s.games, s.runs);
    WrittenUids(cfg, s);
    var b := BundleOf(cfg, s);
    forall i | 0 <= i < |s.games|
      ensures b.logs[i].number == Some(i + 1) && b.configs[i].number == Some(i + 1)
      ensures b.configs[i].configHash == Some(cfg.configHash)
      ensures b.result.value.entries[i].number == i + 1 && |b.logs[i].steps| == b.result.value.entries[i].steps
    {
      WrittenGame(cfg, inputs, s, i);
    }
    CountingIsDistinct(ConfigNumbers(b.configs));
    CountingIsDistinct(LogNumbers(b.logs));
  }

  lemma WrittenGame(cfg: Config, inputs: GameInputs, s: Series, i: nat)
    requires Faithful(cfg, inputs, s.games, s.runs) && i < |s.games|
    ensures LogOf(cfg, s.games[i], s.runs[i]).number == Some(i + 1)
    ensures ConfigOf(cfg, s.games[i]).number == Some(i + 1)
    ensures ConfigOf(cfg, s.games[i]).configHash == Some(cfg.configHash)
    ensures EntryOf(s.games[i]).number == i + 1
    ensures |LogOf(cfg, s.games[i], s.runs[i]).steps| == EntryOf(s.games[i]).steps
  {
    hide R.SoundRun;
  }

  lemma CountingIsDistinct(numbers: seq<Option<int>>)
    requires forall i :: 0 <= i < |numbers| ==> numbers[i] == Some(i + 1)
    ensures Distinct(numbers)
  {
  }

  /** The totals a final series may carry: its sums, or zero if it is completed and disputed. */
  ghost predicate HonestTotals(s: Series) {
    (s.police, s.thief)
    == if s.reason.Completed? && s.status.DisputedZeroed? then (0, 0) else (PoliceSum(s.games), ThiefSum(s.games))
  }

  lemma WrittenScoresAreRight(cfg: Config, inputs: GameInputs, s: Series)
    requires Faithful(cfg, inputs, s.games, s.runs) && HonestTotals(s)
    ensures ScoresRight(ResultOf(cfg, s), cfg.scoring)
    ensures forall i :: 0 <= i < |s.games| ==> ParseResult(ResultOf(cfg, s).entries[i].result).Some?
  {
    hide Lawful, ParseResult, ResultName, Score, PoliceSum, ThiefSum, PoliceTotal, ThiefTotal;
    var r := ResultOf(cfg, s);
    EntrySums(s.games, r.entries);
    StatusNames(s.status);
    forall i | 0 <= i < |s.games| ensures EntryScored(r.entries[i], cfg.scoring) {
      assert R.SoundRun(cfg, i + 1, inputs(i), s.runs[i]);
      NamesParse(s.games[i].result);
    }
  }

  /** An entry is scored right exactly when its outcome is one of the three and both scores are the
      configured ones of that outcome, the police's and the thief's. */
  lemma ScoredIsExact(e: ResultEntry, scoring: Scoring)
    ensures EntryScored(e, scoring) <==>
              || (e.result == "capture" && e.police == scoring.captureCop && e.thief == scoring.captureThief)
              || (e.result == "survival" && e.police == scoring.survivalCop && e.thief == scoring.survivalThief)
              || (e.result == "technical_loss" && e.police == e.thief == scoring.technicalLoss)
  {
    assert "survival"[0] != "capture"[0] && "technical_loss"[0] != "capture"[0] && "technical_loss"[0] != "survival"[0];
  }

  /** What the result says of game `i`: how its run ended, who won, the configured scores and how many
      records it kept. */
  lemma WrittenEntry(cfg: Config, inputs: GameInputs, s: Series, i: nat)
    requires Faithful(cfg, inputs, s.games, s.runs) && i < |s.games|
    ensures var e, run, scoring := ResultOf(cfg, s).entries[i], s.runs[i], cfg.scoring;
            && e.number == i + 1 && e.steps == |run.records|
            && match run.result
               case Capture =>
                 && e.result == "capture" && e.winner == Some(M.Police)
                 && e.police == scoring.captureCop && e.thief == scoring.captureThief
               case Survival =>
                 && e.result == "survival" && e.winner == Some(M.Thief)
                 && e.police == scoring.survivalCop && e.thief == scoring.survivalThief
               case TechnicalLoss =>
                 && e.result == "technical_loss" && e.winner == None
                 && e.police == e.thief == scoring.technicalLoss
  {
    hide Lawful;
    assert R.SoundRun(cfg, i + 1, inputs(i), s.runs[i]);
  }

  /** The status and the totals of a written result: the totals are the sums of the configured scores,
      or zero under the one status that says so. */
  lemma WrittenResult(cfg: Config, inputs: GameInputs, s: Series)
    requires Faithful(cfg, inputs, s.games, s.runs) && HonestTotals(s)
    ensures var r := ResultOf(cfg, s);
            && |r.entries| == |s.runs|
            && (if r.status == "disputed_zeroed" then r.police == r.thief == 0
                else r.police == PoliceTotal(r.entries) && r.thief == ThiefTotal(r.entries))
            && match s.reason
               case TechnicalLossEndedSeries => r.status == "technical_loss_ended_series"
               case Completed =>
                 match s.status
                 case Agreed => r.status == "agreed"
                 case DisputedZeroed => r.status == "disputed_zeroed"
                 case UnverifiedSelfPlay => r.status == "unverified_self_play"
  {
    hide Lawful, R.SoundRun, PoliceSum, ThiefSum, PoliceTotal, ThiefTotal, EntryOf;
    EntrySums(s.games, ResultOf(cfg, s).entries);
    StatusNames(s.status);
  }

  lemma StatusNames(status: AgreementStatus)
    ensures StatusName(status) == "disputed_zeroed" <==> status.DisputedZeroed?
    ensures LOSS_REASON != "disputed_zeroed"
  {
    assert "agreed"[0] != "disputed_zeroed"[0] && "unverified_self_play"[0] != "disputed_zeroed"[0];
    assert LOSS_REASON[0] != "disputed_zeroed"[0];
  }

  /** Every game of the series used each nonce once. */
  ghost predicate NoncesFresh(inputs: GameInputs, s: Series) {
    forall i :: 0 <= i < |s.runs| ==> FreshNoncesOf(inputs, s, i)
  }

  ghost predicate FreshNoncesOf(inputs: GameInputs, s: Series, i: nat)
    requires i < |s.runs|
  {
    R.FreshNonces(inputs(i), |s.runs[i].records|)
  }

  lemma WrittenLogs(u: Unroll, cfg: Config, inputs: GameInputs, s: Series, i: nat)
    requires Faithful(cfg, inputs, s.games, s.runs) && i < |s.games|
    ensures LogCheckable(u, BundleOf(cfg, s).logs[i].steps, cfg.gridSize)
    ensures LogAccepted(u, BundleOf(cfg, s).logs[i].steps, cfg.gridSize) <==> FreshNoncesOf(inputs, s, i)
  {
    hide LogCheckable, LogAccepted, Lawful;
    assert R.SoundRun(cfg, i + 1, inputs(i), s.runs[i]);
    HonestLogIsAccepted(u, cfg, i + 1, s.runs[i].records, inputs(i), cfg.gridSize);
  }

  lemma WrittenIsVerified(u: Unroll, cfg: Config, inputs: GameInputs, s: Series)
    requires s.games != [] && Faithful(cfg, inputs, s.games, s.runs) && HonestTotals(s)
    ensures Checkable(u, BundleOf(cfg, s))
    ensures VerifiedBundle(u, BundleOf(cfg, s)) <==> NoncesFresh(inputs, s)
  {
    hide LogCheckable, LogAccepted, Consistent, ScoresRight, Faithful, HonestTotals, FreshNoncesOf;
    assert |s.games| == |s.runs| by { FaithfulLengths(cfg, inputs, s.games, s.runs); }
    WrittenIsConsistent(cfg, inputs, s);
    WrittenScoresAreRight(cfg, inputs, s);
    forall i | 0 <= i < |s.games|
      ensures LogCheckable(u, BundleOf(cfg, s).logs[i].steps, cfg.gridSize)
      ensures LogAccepted(u, BundleOf(cfg, s).logs[i].steps, cfg.gridSize) <==> FreshNoncesOf(inputs, s, i)
    {
      WrittenLogs(u, cfg, inputs, s, i);
    }
  }

  function SideOf(cfg: Config, s: Series): Side {
    Side(M.Thief, cfg.gameUid, cfg.configHash, s.games, s.police, s.thief)
  }

  lemma VerdictKeepsTotalsHonest(cfg: Config, s: Series, theirs: Option<AuditMessage>)
    requires s.police == PoliceSum(s.games) && s.thief == ThiefSum(s.games) && s.status.UnverifiedSelfPlay?
    ensures HonestTotals(Certified(s, Decide(SideOf(cfg, s), theirs)))
  {
    hide ResultDigest, PoliceSum, ThiefSum;
  }

  /** Replay completeness: for every series that ends, on any deliveries, reveals, turn caps and
      whatever the opponent submits (or does not) for the final agreement, checking the written
      bundle never raises, and the bundle is verified if and only if no game repeated a nonce. */
  lemma ReplayCompleteness(u: Unroll, cfg: Config, inputs: GameInputs, numGames: int, maxTurns: Option<int>,
                           theirs: Option<AuditMessage>)
    requires cfg.Valid() && numGames >= 1
    ensures var conclusion := PlaySeries(cfg, inputs, numGames, maxTurns, L.FRESH_MACHINE).1;
            conclusion.Played? ==>
              var final := Certified(conclusion.series, Decide(SideOf(cfg, conclusion.series), theirs));
              && |final.games| == |final.runs|
              && Checkable(u, BundleOf(cfg, final))
              && (VerifiedBundle(u, BundleOf(cfg, final)) <==> NoncesFresh(inputs, final))
  {
    hide PlaySeries, Faithful, PoliceSum, ThiefSum, Decide, VerifiedBundle, Checkable, HonestTotals;
    SeriesIsLegal(cfg, inputs, numGames, maxTurns);
    var conclusion := PlaySeries(cfg, inputs, numGames, maxTurns, L.FRESH_MACHINE).1;
    if conclusion.Played? {
      var s := conclusion.series;
      FaithfulLengths(cfg, inputs, s.games, s.runs);
      VerdictKeepsTotalsHonest(cfg, s, theirs);
      WrittenIsVerified(u, cfg, inputs, Certified(s, Decide(SideOf(cfg, s), theirs)));
    }
  }

  // ----- Tampering with a written bundle -----

  /** The bundle with other steps in its logs. */
  function WithSteps(b: Bundle, steps: seq<seq<Dict>>): Bundle
    requires |steps| == |b.logs|
  {
    b.(logs := seq(|b.logs|, i requires 0 <= i < |b.logs| => b.logs[i].(steps := steps[i])))
  }

  /** The cross-artifact checks hold of a written bundle with other steps in its logs exactly when no
      log has gained or lost a step. */
  lemma RewrittenConsistency(cfg: Config, inputs: GameInputs, s: Series, steps: seq<seq<Dict>>)
    requires s.games != [] && Faithful(cfg, inputs, s.games, s.runs) && |steps| == |s.runs|
    ensures |s.games| == |s.runs|
    ensures var c := WithSteps(BundleOf(cfg, s), steps);
            && Complete(c)
            && (Consistent(c) <==> forall i :: 0 <= i < |steps| ==> |steps[i]| == |s.runs[i].records|)
  {
    hide Faithful, LogSteps, EntryOf, ConfigOf, R.SoundRun, Distinct, OneUid, HashesAgree;
    FaithfulLengths(cfg, inputs, s.games, s.runs);
    WrittenIsConsistent(cfg, inputs, s);
    var b := BundleOf(cfg, s);
    var c := WithSteps(b, steps);
    assert Uids(c) == Uids(b) && LogNumbers(c.logs) == LogNumbers(b.logs);
    forall i | 0 <= i < |s.games|
      ensures c.logs[i].number == Some(i + 1) && |c.logs[i].steps| == |steps[i]|
      ensures b.result.value.entries[i].number == i + 1
      ensures b.result.value.entries[i].steps == |s.runs[i].records|
    {
      WrittenGame(cfg, inputs, s, i);
      WrittenStepCount(cfg, inputs, s, i);
    }
    if Consistent(c) {
      forall i | 0 <= i < |steps| ensures |steps[i]| == |s.runs[i].records| {
        assert StepCountsAgree(c.logs, b.result.value.entries[i]);
      }
    }
  }

  lemma WrittenStepCount(cfg: Config, inputs: GameInputs, s: Series, i: nat)
    requires Faithful(cfg, inputs, s.games, s.runs) && i < |s.games|
    ensures EntryOf(s.games[i]).steps == |s.runs[i].records|
  {
    hide R.SoundRun;
  }

  /** The steps show no other commitments than those the run published. */
  ghost predicate UnderCommitments(run: R.RunResult, steps: seq<Dict>) {
    forall j :: 0 <= j < |steps| && j < |run.records| && CommitHashField in steps[j] ==>
      steps[j][CommitHashField] == run.records[j].commitHash
  }

  /** One step for every record, each the written one up to droppable keys. */
  ghost predicate AllTrimmed(run: R.RunResult, steps: seq<Dict>) {
    && |steps| == |run.records|
    && forall j :: 0 <= j < |steps| ==> Trimmed(LogStep(run.records[j].Sealed()), steps[j])
  }

  lemma TamperedLog(u: Unroll, cfg: Config, inputs: GameInputs, s: Series, i: nat, steps: seq<Dict>)
    requires cfg.gridSize >= 1 && Faithful(cfg, inputs, s.games, s.runs) && i < |s.runs| && FreshNoncesOf(inputs, s, i)
    requires UnderCommitments(s.runs[i], steps) && |steps| == |s.runs[i].records|
    ensures LogAccepted(u, steps, cfg.gridSize) <==> AllTrimmed(s.runs[i], steps)
  {
    hide LogAccepted, Lawful, Trimmed, LogStep;
    assert R.SoundRun(cfg, i + 1, inputs(i), s.runs[i]);
    TamperingIsReported(u, cfg, i + 1, s.runs[i].records, inputs(i), steps, cfg.gridSize);
  }

  /** Rewrite the logs of a written bundle at will, with any number of steps, without showing another
      commitment than the published ones: the bundle stays verified if and only if no log has gained
      or lost a step and every step is the written one up to droppable keys. */
  lemma RewrittenLogsAreReported(u: Unroll, cfg: Config, inputs: GameInputs, s: Series, steps: seq<seq<Dict>>)
    requires cfg.gridSize >= 1 && s.games != [] && Faithful(cfg, inputs, s.games, s.runs) && HonestTotals(s)
    requires NoncesFresh(inputs, s)
    requires |steps| == |s.runs| && forall i :: 0 <= i < |steps| ==> UnderCommitments(s.runs[i], steps[i])
    ensures |s.games| == |s.runs|
    ensures VerifiedBundle(u, WithSteps(BundleOf(cfg, s), steps))
            <==> forall i :: 0 <= i < |steps| ==> AllTrimmed(s.runs[i], steps[i])
  {
    hide LogCheckable, LogAccepted, Consistent, ScoresRight, Faithful, HonestTotals, FreshNoncesOf, LogSteps, Trimmed,
      LogStep, UnderCommitments;
    RewrittenConsistency(cfg, inputs, s, steps);
    WrittenScoresAreRight(cfg, inputs, s);
    forall i | 0 <= i < |steps| && |steps[i]| == |s.runs[i].records|
      ensures LogAccepted(u, steps[i], cfg.gridSize) <==> AllTrimmed(s.runs[i], steps[i])
    {
      TamperedLog(u, cfg, inputs, s, i, steps[i]);
    }
    var c := WithSteps(BundleOf(cfg, s), steps);
    assert c.configs[0].terms == Terms(cfg.gridSize, cfg.scoring);
    assert forall j :: 0 <= j < |c.logs| ==> c.logs[j].steps == steps[j];
    assert forall i :: 0 <= i < |steps| ==> steps[i] == c.logs[i].steps;
  }

  /** Whatever the steps say, a verified bundle has as many in each log as records were kept. */
  lemma LostRecordsAreReported(u: Unroll, cfg: Config, inputs: GameInputs, s: Series, steps: seq<seq<Dict>>)
    requires s.games != [] && Faithful(cfg, inputs, s.games, s.runs) && |steps| == |s.runs|
    ensures |s.games| == |s.runs|
    ensures VerifiedBundle(u, WithSteps(BundleOf(cfg, s), steps)) ==>
              forall i :: 0 <= i < |steps| ==> |steps[i]| == |s.runs[i].records|
  {
    hide LogAccepted, Consistent, ScoresRight, Faithful, LogSteps;
    RewrittenConsistency(cfg, inputs, s, steps);
  }

  lemma {:induction false} SameScoresSameTotals(a: seq<ResultEntry>, b: seq<ResultEntry>)
    requires |a| == |b| && forall i :: 0 <= i < |a| ==> a[i].police == b[i].police && a[i].thief == b[i].thief
    ensures PoliceTotal(a) == PoliceTotal(b) && ThiefTotal(a) == ThiefTotal(b)
  {
    if a != [] {
      SameScoresSameTotals(a[..|a| - 1], b[..|b| - 1]);
    }
  }

  // ----- Tampering with what identifies the artifacts -----

  /** The same steps, terms, outcomes, scores, totals and status. */
  ghost predicate SameContents(b: Bundle, c: Bundle) {
    && Complete(b) && Complete(c) && c.configs[0].terms == b.configs[0].terms
    && |c.logs| == |b.logs| && (forall j :: 0 <= j < |b.logs| ==> c.logs[j].steps == b.logs[j].steps)
    && var r, q := b.result.value, c.result.value;
       && |q.entries| == |r.entries| && q.police == r.police && q.thief == r.thief && q.status == r.status
       && forall i :: 0 <= i < |r.entries| ==>
            && q.entries[i].result == r.entries[i].result
            && q.entries[i].police == r.entries[i].police && q.entries[i].thief == r.entries[i].thief
  }

  lemma OnlyConsistencyMatters(u: Unroll, b: Bundle, c: Bundle)
    requires VerifiedBundle(u, b) && SameContents(b, c)
    ensures VerifiedBundle(u, c) <==> Consistent(c)
  {
    hide LogAccepted, Consistent, ParseResult, Score, PoliceTotal, ThiefTotal;
    var r, q := b.result.value, c.result.value;
    SameScoresSameTotals(q.entries, r.entries);
    forall i | 0 <= i < |q.entries| ensures EntryScored(q.entries[i], c.configs[0].terms.scoring) {
      assert EntryScored(r.entries[i], b.configs[0].terms.scoring);
    }
  }

  /** A written bundle, its nonces fresh, that passes. */
  ghost predicate WrittenAndFresh(cfg: Config, inputs: GameInputs, s: Series) {
    s.games != [] && Faithful(cfg, inputs, s.games, s.runs) && HonestTotals(s) && NoncesFresh(inputs, s)
  }

  /** What a written bundle says of each game. */
  ghost predicate Plain(cfg: Config, s: Series, b: Bundle) {
    var n := |s.games|;
    && n >= 1 && |s.runs| == n && |b.configs| == n && |b.logs| == n
    && b.result.Some? && |b.result.value.entries| == n
    && b.declaration == Some(Some(cfg.gameUid))
    && b.result.value.gameUid == Some(cfg.gameUid) && b.result.value.configHash == Some(cfg.configHash)
    && forall i :: 0 <= i < n ==>
         && b.configs[i].gameUid == Some(cfg.gameUid) && b.configs[i].configHash == Some(cfg.configHash)
         && b.configs[i].number == Some(i + 1)
         && b.logs[i].gameUid == Some(cfg.gameUid) && b.logs[i].number == Some(i + 1)
         && |b.logs[i].steps| == |s.runs[i].records|
         && b.result.value.entries[i].number == i + 1
         && b.result.value.entries[i].steps == |s.runs[i].records|
  }

  lemma WrittenIsPlain(u: Unroll, cfg: Config, inputs: GameInputs, s: Series)
    requires WrittenAndFresh(cfg, inputs, s)
    ensures |s.games| == |s.runs| && VerifiedBundle(u, BundleOf(cfg, s)) && Plain(cfg, s, BundleOf(cfg, s))
  {
    hide VerifiedBundle, Checkable, Faithful, HonestTotals, NoncesFresh, LogSteps, R.SoundRun;
    FaithfulLengths(cfg, inputs, s.games, s.runs);
    WrittenIsVerified(u, cfg, inputs, s);
    forall i | 0 <= i < |s.games|
      ensures ConfigOf(cfg, s.games[i]).number == Some(i + 1) && EntryOf(s.games[i]).number == i + 1
      ensures LogOf(cfg, s.games[i], s.runs[i]).number == Some(i + 1)
      ensures |LogOf(cfg, s.games[i], s.runs[i]).steps| == |s.runs[i].records| == EntryOf(s.games[i]).steps
    {
      WrittenGame(cfg, inputs, s, i);
      WrittenStepCount(cfg, inputs, s, i);
    }
  }

  /** A number that no other of the games 1 .. n has. */
  predicate OfNoOther(number: Option<int>, i: nat, n: nat) {
    number.None? || number.value == i + 1 || !(1 <= number.value <= n)
  }

  /** Another identity on one config: the bundle stays verified if and only if the game uid and the
      config hash are the agreed ones and the number is not that of another game. */
  lemma ForeignConfigsAreReported(u: Unroll, cfg: Config, inputs: GameInputs, s: Series, i: nat, uid: Option<string>,
                                  number: Option<int>, hash: Option<string>)
    requires WrittenAndFresh(cfg, inputs, s) && i < |s.games|
    ensures |s.games| == |s.runs|
    ensures var b := BundleOf(cfg, s);
            VerifiedBundle(u, b.(configs := b.configs[i := ConfigArtifact(uid, number, hash, b.configs[i].terms)]))
            <==> uid == Some(cfg.gameUid) && hash == Some(cfg.configHash) && OfNoOther(number, i, |s.games|)
  {
    hide VerifiedBundle, WrittenAndFresh, BundleOf, Uids, LogNumbers;
    WrittenIsPlain(u, cfg, inputs, s);
    var b := BundleOf(cfg, s);
    var c := b.(configs := b.configs[i := ConfigArtifact(uid, number, hash, b.configs[i].terms)]);
    ConsistencyFacts(u, b);
    OnlyConsistencyMatters(u, b, c);
    ChangedUid(cfg, s, b, c, i, uid);
    ChangedNumber(ConfigNumbers(b.configs), i, number, |s.games|);
    assert ConfigNumbers(c.configs) == ConfigNumbers(b.configs)[i := number];
  }

  lemma ConsistencyFacts(u: Unroll, b: Bundle)
    requires VerifiedBundle(u, b)
    ensures Complete(b) && Consistent(b)
  {
    hide LogAccepted, ScoresRight, Consistent;
  }

  /** Changing a number keeps the numbers 1, 2, ... distinct exactly when it is of no other. */
  lemma ChangedNumber(numbers: seq<Option<int>>, i: nat, number: Option<int>, n: nat)
    requires |numbers| == n && i < n && forall j :: 0 <= j < n ==> numbers[j] == Some(j + 1)
    ensures Distinct(numbers[i := number]) <==> OfNoOther(number, i, n)
  {
    var changed := numbers[i := number];
    if !OfNoOther(number, i, n) {
      var j := number.value - 1;
      assert changed[j] == number == changed[i];
    }
  }

  /** The uids of a written bundle with one config, or one log, under another uid. */
  lemma ChangedUid(cfg: Config, s: Series, b: Bundle, c: Bundle, i: nat, uid: Option<string>)
    requires Plain(cfg, s, b) && i < |s.games|
    requires || (&& |c.configs| == |b.configs| && c == b.(configs := b.configs[i := c.configs[i]])
                 && c.configs[i].gameUid == uid)
             || (&& |c.logs| == |b.logs| && c == b.(logs := b.logs[i := c.logs[i]])
                 && c.logs[i].gameUid == uid)
    ensures OneUid(Uids(c)) <==> uid == Some(cfg.gameUid)
  {
    var all, n := Uids(c), |s.games|;
    assert all[|all| - 1] == Some(cfg.gameUid);
    if c.configs != b.configs {
      assert all[i] == uid;
    } else {
      assert all[n + i] == c.logs[i].gameUid;
    }
  }

  /** Another identity on one log: the bundle stays verified if and only if the game uid is the agreed
      one and the number is not that of another game. */
  lemma ForeignLogsAreReported(u: Unroll, cfg: Config, inputs: GameInputs, s: Series, i: nat, uid: Option<string>,
                               number: Option<int>)
    requires WrittenAndFresh(cfg, inputs, s) && i < |s.games|
    ensures |s.games| == |s.runs|
    ensures var b := BundleOf(cfg, s);
            VerifiedBundle(u, b.(logs := b.logs[i := b.logs[i].(gameUid := uid, number := number)]))
            <==> uid == Some(cfg.gameUid) && OfNoOther(number, i, |s.games|)
  {
    hide VerifiedBundle, WrittenAndFresh, BundleOf, Uids, ConfigNumbers;
    WrittenIsPlain(u, cfg, inputs, s);
    var b := BundleOf(cfg, s);
    var c := b.(logs := b.logs[i := b.logs[i].(gameUid := uid, number := number)]);
    ConsistencyFacts(u, b);
    OnlyConsistencyMatters(u, b, c);
    ChangedUid(cfg, s, b, c, i, uid);
    ChangedNumber(LogNumbers(b.logs), i, number, |s.games|);
    assert LogNumbers(c.logs) == LogNumbers(b.logs)[i := number];
    if OfNoOther(number, i, |s.games|) {
      forall k | 0 <= k < |s.games| ensures StepCountsAgree(c.logs, b.result.value.entries[k]) {
      }
    }
  }

  /** Another identity on the result or the declaration: the bundle stays verified if and only if the
      result has the agreed game uid and config hash, and the declaration, if there is one, the uid. */
  lemma ForeignResultsAreReported(u: Unroll, cfg: Config, inputs: GameInputs, s: Series,
                                  declaration: Option<Option<string>>, uid: Option<string>, hash: Option<string>)
    requires WrittenAndFresh(cfg, inputs, s)
    ensures |s.games| == |s.runs|
    ensures var b := BundleOf(cfg, s);
            VerifiedBundle(u, b.(declaration := declaration,
                                 result := Some(b.result.value.(gameUid := uid, configHash := hash))))
            <==> && uid == Some(cfg.gameUid) && hash == Some(cfg.configHash)
                 && (declaration.Some? ==> declaration.value == Some(cfg.gameUid))
  {
    hide VerifiedBundle, WrittenAndFresh, BundleOf, ConfigNumbers, LogNumbers, Distinct;
    WrittenIsPlain(u, cfg, inputs, s);
    var b := BundleOf(cfg, s);
    var c := b.(declaration := declaration, result := Some(b.result.value.(gameUid := uid, configHash := hash)));
    ConsistencyFacts(u, b);
    OnlyConsistencyMatters(u, b, c);
    assert c.configs[0].configHash == Some(cfg.configHash);
    ResultUids(cfg, s, b, c);
  }

  lemma ResultUids(cfg: Config, s: Series, b: Bundle, c: Bundle)
    requires Plain(cfg, s, b) && c.configs == b.configs && c.logs == b.logs && c.result.Some?
    ensures OneUid(Uids(c)) <==>
              && c.result.value.gameUid == Some(cfg.gameUid)
              && (c.declaration.Some? ==> c.declaration.value == Some(cfg.gameUid))
  {
    var all, n := Uids(c), |s.games|;
    assert all[0] == Some(cfg.gameUid) && all[|all| - 1] == c.result.value.gameUid;
    if c.declaration.Some? {
      assert all[2 * n] == c.declaration.value;
    }
  }

  /** Another step count on one entry of the result: the bundle stays verified if and only if it is the
      number of records that the game kept. */
  lemma ForeignStepCountsAreReported(u: Unroll, cfg: Config, inputs: GameInputs, s: Series, i: nat, steps: int)
    requires WrittenAndFresh(cfg, inputs, s) && i < |s.games|
    ensures |s.games| == |s.runs|
    ensures var b := BundleOf(cfg, s);
            var r := b.result.value;
            VerifiedBundle(u, b.(result := Some(r.(entries := r.entries[i := r.entries[i].(steps := steps)]))))
            <==> steps == |s.runs[i].records|
  {
    hide VerifiedBundle, WrittenAndFresh, BundleOf, ConfigNumbers, LogNumbers, Distinct, OneUid;
    WrittenIsPlain(u, cfg, inputs, s);
    var b := BundleOf(cfg, s);
    var r := b.result.value;
    var c := b.(result := Some(r.(entries := r.entries[i := r.entries[i].(steps := steps)])));
    ConsistencyFacts(u, b);
    OnlyConsistencyMatters(u, b, c);
    assert Uids(c) == Uids(b);
    if Consistent(c) {
      assert StepCountsAgree(c.logs, c.result.value.entries[i]);
      assert c.logs[i].number == Some(c.result.value.entries[i].number);
    }
    if steps == |s.runs[i].records| {
      assert c.result.value.entries == r.entries;
    }
  }

  /** A bundle in which a config, a log or an entry is missing or added is not verified. */
  lemma MissingArtifactsAreReported(u: Unroll, b: Bundle)
    requires VerifiedBundle(u, b)
    ensures b.result.Some? && |b.configs| == |b.logs| == |b.result.value.entries| >= 1
  {
    hide LogAccepted, ScoresRight;
  }

  /** The declared outcomes pin every number of a verified result: two verified results with the same
      outcomes under the same scoring, both disputed or both not, have equal scores and totals. */
  lemma OutcomesPinScores(u: Unroll, a: Bundle, b: Bundle)
    requires VerifiedBundle(u, a) && VerifiedBundle(u, b)
    requires a.configs[0].terms.scoring == b.configs[0].terms.scoring
    requires |a.result.value.entries| == |b.result.value.entries|
    requires forall i :: 0 <= i < |a.result.value.entries| ==>
               a.result.value.entries[i].result == b.result.value.entries[i].result
    requires a.result.value.status == "disputed_zeroed" <==> b.result.value.status == "disputed_zeroed"
    ensures forall i :: 0 <= i < |a.result.value.entries| ==>
              && a.result.value.entries[i].police == b.result.value.entries[i].police
              && a.result.value.entries[i].thief == b.result.value.entries[i].thief
    ensures a.result.value.police == b.result.value.police && a.result.value.thief == b.result.value.thief
  {
    hide LogAccepted, ParseResult, Score, Consistent;
    var x, y := a.result.value.entries, b.result.value.entries;
    forall i | 0 <= i < |x| ensures x[i].police == y[i].police && x[i].thief == y[i].thief {
      assert EntryScored(x[i], a.configs[0].terms.scoring) && EntryScored(y[i], b.configs[0].terms.scoring);
    }
    SameScoresSameTotals(x, y);
  }

  /** The verdicts that are written agree with the verifier: a log says verified exactly when the
      verifier accepts it, and an entry is marked as audited exactly when its game was audited and
      its log says verified. */
  lemma WrittenVerdictsAgree(u: Unroll, cfg: Config, inputs: GameInputs, s: Series, i: nat)
    requires Faithful(cfg, inputs, s.games, s.runs) && i < |s.games|
    ensures var b := BundleOf(cfg, s);
            && (b.logs[i].verdict.Verified? <==> LogAccepted(u, b.logs[i].steps, cfg.gridSize))
            && (b.result.value.entries[i].auditOk <==> s.runs[i].audit.Some? && b.logs[i].verdict.Verified?)
  {
    hide LogCheckable, LogAccepted, Lawful, R.AuditVerdict, R.FreshNonces;
    assert R.SoundRun(cfg, i + 1, inputs(i), s.runs[i]);
    HonestLogIsAccepted(u, cfg, i + 1, s.runs[i].records, inputs(i), cfg.gridSize);
  }
}
