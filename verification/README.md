# Protocol engine of the thief peer, in Dafny

This project models the part of the thief peer that plays a series against an opponent and leaves
evidence behind, and proves what that part promises.

- **The engine.** `TurnEngine` is one turn and the loop over turns as functions of the local state and
  of everything the environment supplies: the brain's choice among the legal directions, hint texts,
  timestamps, nonces, what becomes of each delivery, and the opponent's reveal, which is any
  dictionary. `Reveals` reads it, with every way in which reading can raise. `TurnFacts` is the
  closed-form case analysis of a turn; `SubGameRuns` lifts it to whole runs, and `RawReveals` restates
  both over the keys and values of the dictionaries themselves. `TurnLoop`,
  `SubGameRuntime` and `SeriesRuntime` are the same code over mutable state, each method tied to its
  function, and the theorems about sub-games and series.
- **The wire.** `Messages`, `Sequence`, `Inbox`, `Router` and `Gateway` are the receiving side;
  `OutgoingStream` connects it to what a run sends, `TurnExchange` to what a turn is told; `Lockstep`
  runs two peers against each other through a whole series, in every interleaving.
- **The evidence.** `Json`, `Sealing` and `Exchange` are canonical payloads, commitments and the
  commit-reveal guard; `ReplayChecks`, `LogIntegrity` and `ReplayVerifier` are the artifacts, the
  replay verifier, and the two theorems about them: everything an honest run writes is verified, and
  nothing can change under fixed commitments.
- **The agreement.** `Agreement` is the bilateral exchange at the end of a series, with two peers as a
  state machine.
- **The arithmetic.** `Grids`, `Belief`, `BeliefUpdate`, `BeliefLaws`, `Scent`, `FloodFill`,
  `HintRegions` and `Geometry` are the board, the belief with the law of a whole update, the scent and
  the bounded search.
- **The limiters.** `SlidingWindow`, `Gatekeeper` and `Pacer`.

Conventions. Floats are reals, and the threshold 1e-12 is kept. SHA-256 over canonical JSON is a
constructor, hence injective. Entropy is an arbitrary real-valued function. Asynchronous code is a
sequence of atomic steps between its awaits, and a deque, queue or dictionary that a method updates is
a field that the method reassigns. `None` and `Raised`, `Escaped` or `Crashed` results stand for
exceptions. The bodies of most proofs hide definitions (`hide`) to keep the solver's work small.

Where the code and its own documentation differ, the model follows the code:

- `services/turn_loop.py` says that any technical failure becomes a technical loss. The move of a turn
  is made on the board that already holds this turn's barrier, so a barrier on the chosen cell raises
  `IllegalActionError`, which nothing catches. Evidence that cannot be read raises too, and only the
  KeyError of an object in place of a cell becomes a technical loss. `TurnFacts.TurnCases` gives the
  exact conditions, `SubGameRuns.BarrierOnTheChosenCellEscapes` and
  `SubGameRuns.UnreadableEvidenceEscapes` give instances.
- `domain/scent_validation.py` says that validation never raises. The finiteness test raises
  OverflowError on an integer that no double can hold (`Scent.OverflowIsExact`).
- `infrastructure/turn_router.py` advances the order tracker before it asks the queue for room, so a
  core message that finds the queue full is lost for good (`Router.BackpressureLosesTheMessage`); every
  other rejection changes nothing. `Router.BackpressureIsExact` says when this happens,
  `Router.FullQueueRefusesTheReveal` that it does.
- `domain/belief_model.py` falls back to uniform over the whole board, barriers included. Barriers
  therefore have probability zero exactly under the condition in `BeliefUpdate.UpdateKeepsInvariant`.
- `services/replay_checks.py` rejects tampered steps, with one exception: a key whose sealed value equals
  the reader's default can be left out unnoticed (an absent claim response, win claim, barrier or claim,
  and the position if it is the cell (0, 0)). `LogIntegrity.TamperingIsReported` shows that nothing else
  can, `LogIntegrity.WinClaimCanBeLeftOut` that this can.
- Completeness of the replay rests on fresh nonces; `ReplayVerifier.ReplayCompleteness` states the
  condition as an equivalence instead of assuming it.

## Model

| member | source | states |
|---|---|---|
| `TurnFacts.TurnCases` | src/thief_peer/services/turn_loop.py:40-185 | Every branch of one turn, from any state between turns and for any reveal dictionary: a failed delivery is a technical loss in ERROR with no record added, a cancellation escapes while waiting for the ack; a delivered turn keeps exactly one new record and then closes as a capture, ends as a technical loss (an object in place of a cell), escapes (other evidence that cannot be read, or a barrier on the chosen cell), survives at the threshold, or goes on with the successor state given in full |
| `TurnFacts.ExchangeTurn` | src/thief_peer/services/turn_loop.py:110-126 | Commit, acknowledge and reveal of the next step are all accepted by the per-step tracker, in this order, for the record sealed that turn |
| `TurnFacts.MoveFacts` | src/thief_peer/services/turn_loop.py:154-170 | The chosen move stays on the board, and it is refused after the evidence is absorbed exactly when the new barrier is on the chosen cell |
| `TurnLoop.SubGameState.RunTurn` | src/thief_peer/services/turn_loop.py:40-144 | The in-place turn over the mutable state, machine and tracker ends with exactly the state and result of the turn function whose cases are proved above, exceptions included |
| `TurnLoop.SubGameState.ResolveTurn` | src/thief_peer/services/turn_loop.py:147-185 | Resolving against the cell before the move, absorbing the evidence, then moving or freezing: the whole new state and result, with every way in which reading the evidence raises |
| `TurnLoop.SubGameState.SealTurn` | src/thief_peer/services/turn_prep.py:15-31 | The sealed record carries the step, the cell before the move, the pending answer and this turn's scent, and changes nothing |
| `TurnLoop.SubGameState.AbsorbPublicEvidence` | src/thief_peer/services/turn_prep.py:40-62 | Scent, hint and barrier are folded in in this order; the exact point at which an unreadable part raises, and what is already updated by then |
| `TurnLoop.SubGameState.DeliverTurn` | src/thief_peer/services/turn_loop.py:110-126 | Commitment strictly before reveal; an unreachable or refusing peer at either half takes the technical-loss exit, and the record is kept only after both were acknowledged |
| `TurnExchange.DeliverCommitAndReveal` | src/thief_peer/services/turn_exchange.py:37-57 | The two outcomes a turn depends on, from the answers of the two remote calls and everything that reaches the own router meanwhile: the reveal goes out only after a positive answer to the commitment |
| `TurnExchange.AcknowledgedMeansRevealed` | src/thief_peer/services/turn_exchange.py:43-57 | An acknowledged exchange shows the opponent's reveal of this very step, taken at the first poll that sees one; without an acknowledgement none was queued at any poll |
| `TurnLoop.SubGameState.constructor` | src/thief_peer/services/subgame_state.py:59-86 | A fresh local state on a machine that may already be part of a series |
| `SubGameRuns.RunsAreLawful` | src/thief_peer/services/subgame_runtime.py:97-109 | Over any run of the turn loop, whatever the deliveries and reveals: every record is lawful (honest late answer, legal trajectory, scent of its own path, intact commitment), no lifecycle event is ever rejected, every exit leaves the machine in its proper state, and only a cancellation, a barrier on the chosen cell or evidence that cannot be read escapes |
| `SubGameRuns.NewRecordIsLawful` | src/thief_peer/services/turn_loop.py:105-110 | Record i+1 answers the evidence of turn i (True on a hit, False on a claim elsewhere, None otherwise), stands where record i's move led (unchanged after a hit), in bounds, and off every known barrier unless it confirms a hit; hint, intent, timestamp and nonce are those of turn i+1, and its move is a legal one on the board known then |
| `SubGameRuns.OutcomeIsDecidedByReveals` | src/thief_peer/services/turn_loop.py:135-185 | With every delivery successful under the default cap and any reveals: capture with exactly k+2 records if and only if turn k below the threshold is the first encounter and a hit, survival with exactly the threshold of records if and only if nothing is met, and a technical loss or one of the two escapes if and only if the first encounter is of that kind; the cap never runs out |
| `SubGameRuns.BarrierOnTheChosenCellEscapes` | src/thief_peer/services/turn_loop.py:170 | The documented guarantee that a turn never raises fails: a concrete first reveal that makes it raise |
| `SubGameRuns.UnreadableEvidenceEscapes` | src/thief_peer/domain/scent_validation.py:39 | The other escape is real too: a first reveal whose scent grid starts with an integer beyond the range of a double, or whose hint is a number, makes the turn raise |
| `RawReveals.HitIsRaw` | src/thief_peer/services/capture_resolution.py:25-45 | For every dictionary and every cell: a hit is a list under barrier_placed or under capture_claim whose first two values equal the cell's coordinates; the answer is True on a hit, None without a claim, False otherwise |
| `RawReveals.EncounterIsRaw` | src/thief_peer/services/turn_loop.py:147-170 | What a reveal does (hit, blocked move, nothing, KeyError, another exception), each as an equivalence with what is under the keys barrier_placed, capture_claim, scent_grid and hint of the dictionary |
| `RawReveals.DictionariesDecide` | src/thief_peer/services/turn_loop.py:135-185 | The outcome of a run over the dictionaries that arrived: a capture with k+2 records if and only if dictionary k is the first to do anything and its barrier or claim names the cell of record k; and so on for survival, technical loss and the two escapes |
| `RawReveals.LateAnswerIsPublished` | src/thief_peer/services/turn_prep.py:15-31 | In any lawful run the published claim_response of record i+1 is true if and only if the barrier or claim of reveal i named the cell of record i, false if and only if it only claimed something else, and null otherwise; that of record 0 is null |
| `RawReveals.HintIsRaw` | src/thief_peer/services/turn_prep.py:52-55 | The hint raises exactly when it is true but no text; otherwise the hinted cells are those of the region it names, and none exactly when it mentions no region word |
| `RawReveals.RegionIsRaw` | src/thief_peer/domain/hint_region.py:48-55 | The region of a text is the first of northern, southern, eastern, western, central that it shows somewhere, whatever the case of its letters |
| `RawReveals.ScentIsRaw` | src/thief_peer/services/turn_prep.py:46-51 | The scent is what is under scent_grid, and reading it raises exactly when its first defect is an integer beyond the range of a double |
| `Reveals.NamedIsExact` | src/thief_peer/services/capture_resolution.py:31-42 | A cell field names a cell exactly when it is a list whose first two parts equal the coordinates |
| `Reveals.ParseRegionFromHint` | src/thief_peer/domain/hint_region.py:48-55 | The loop yields the first region, in the fixed order, whose word occurs in the lower-case text |
| `Reveals.WordIsFound` | src/thief_peer/domain/hint_region.py:48-55 | A region word is found wherever it stands and however it is capitalised |
| `SubGameRuns.SealedScentIsValid` | src/thief_peer/services/turn_loop.py:62 | Every scent grid a run seals is the closed form of the cells it sealed and passes the opponent's validation |
| `SubGameRuns.BeliefOverTheWholeGame` | src/thief_peer/services/turn_loop.py:63-65 | Before turn k of every run belief and trust are those of k updates from the uniform prior and trust one half, each with the barriers announced so far and the scent and hint of the reveal just before it; they are a distribution and a trust in range; a known barrier has probability zero after the update if and only if the diffusion left more than 1e-12 off the barriers |
| `SubGameRuns.EveryTurnObeysTheLaw` | src/thief_peer/services/turn_loop.py:63-65 | The update of every turn of every run obeys the law of a whole update, with the barriers, scent and hint of the reveals before it |
| `SubGameRuns.FirstBeliefIsUniform` | src/thief_peer/services/subgame_state.py:59-86 | The belief a sub-game starts with is a distribution that gives each of the n*n cells the probability 1/(n*n) |
| `SubGameRuntime.SubGameIsSound` | src/thief_peer/services/subgame_runtime.py:57-158 | Any sub-game that may start: no lifecycle event and no commit, acknowledge or reveal is refused; it ends with lawful records, the score of its result, and an audit that ran exactly when the machine is left in AUDITING and passed exactly when no nonce was repeated; a cancellation leaves ERROR, any other exception VERIFYING |
| `SubGameRuntime.ExhaustedCapIsALoss` | src/thief_peer/services/subgame_runtime.py:97-110 | A game whose turn cap runs out is a technical loss with exactly one record for every turn, in ERROR and without an audit |
| `SubGameRuntime.DeliveredGameIsDecided` | src/thief_peer/services/subgame_runtime.py:57-110 | The outcome characterisation for the whole runtime, with or without the bootstrap: the complete result (records, audit, scores) or the exception of a game whose deliveries succeed |
| `SubGameRuntime.RunIsTheLoop` | src/thief_peer/services/subgame_runtime.py:94-110 | A run, with or without the bootstrap events, is the turn loop from a rested machine followed by its settlement |
| `SubGameRuntime.SubGameRuntime.Run` | src/thief_peer/services/subgame_runtime.py:57-110 | The loop with its early exits, cancellation handler and exhausted cap ends in exactly the machine state and outcome of the specification |
| `SubGameRuntime.SubGameRuntime.AbortGame` | src/thief_peer/services/subgame_runtime.py:129-139 | Forces ERROR from wherever the game is, and finalizes as a technical loss without an audit |
| `SubGameRuntime.SubGameRuntime.FinalizeGame` | src/thief_peer/services/subgame_runtime.py:141-158 | Audits only outside ERROR; a failed audit turns the result, and the score, into a technical loss |
| `SubGameRuntime.LawfulAudit` | src/thief_peer/services/subgame_runtime.py:144-148 | The self-audit of lawful records never finds a mismatch, and passes exactly when the nonces are pairwise different |
| `SeriesRuntime.SeriesIsLegal` | src/thief_peer/services/series_runtime.py:62-126 | From a fresh machine and at least one game: no apply is rejected; the series ends complete with games 1..n, or in ERROR with a technical loss as its last game; totals are the sums; the state is the fold of the accepted log; only a cancellation, a barrier on the chosen cell or an unreadable reveal escapes |
| `SeriesRuntime.RunSeries` | src/thief_peer/services/series_runtime.py:62-118 | The loop over games on the shared machine, with its break on ERROR, refines the series function |
| `SeriesRuntime.AdvanceAfterSubGame` | src/thief_peer/services/series_runtime.py:121-126 | The last game fires SERIES_AUDIT_DONE, an earlier one NEXT_SUB_GAME |
| `Lifecycle.ApplyKeepsExplained` | src/thief_peer/domain/state_machine/machine.py:65-82 | The log stays an explanation of the state: numbered entries, each from the state its predecessors led to, and the fold of the accepted ones is the state |
| `Lifecycle.ErrorAndRestartRules` | src/thief_peer/domain/state_machine/transitions.py:42-71 | ERROR is reachable from every live state and permits only QUIT, final states permit nothing, INITIALIZING is never re-entered |
| `Lifecycle.TransitionsAreExact` | src/thief_peer/domain/state_machine/transitions.py:17-71 | Every accepted transition and no other: one place further on the ordinary way, back to WAITING for another turn or sub-game, to ERROR or to QUIT; signing the terms needs a non-empty reference |
| `Lifecycle.PeerStateMachine.Apply` | src/thief_peer/domain/state_machine/machine.py:65-82 | Logs every attempt and moves only on an accepted one |
| `Lifecycle.PeerStateMachine.ForceError` | src/thief_peer/domain/state_machine/machine.py:84-89 | Accepted exactly outside ERROR and the final states |
| `Exchange.RevealsMatchFirstCommitment` | src/thief_peer/domain/sealing/exchange.py:28-63 | Over any sequence of operations, a revealed record hashes to the first commitment of its step, and neither ever changes afterwards |
| `Exchange.RevealedOnlyOnce` | src/thief_peer/domain/sealing/exchange.py:36-63 | After its reveal a step is never acknowledged or revealed again, whatever follows, and only its own commitment may be repeated |
| `Exchange.CommitRevealExchange.CommitStep` | src/thief_peer/domain/sealing/exchange.py:36-44 | A repeated identical commitment is accepted silently, a different one is refused |
| `Exchange.CommitRevealExchange.RevealStep` | src/thief_peer/domain/sealing/exchange.py:52-63 | Accepted exactly after one acknowledgement, once, with a payload that hashes to the commitment |
| `OutgoingStream.RunsAreAcceptedInOrder` | src/thief_peer/services/turn_messages.py:43-77 | The messages of any run carry sequence ids 0, 1, 2, ... and are accepted one by one by a fresh tracker |
| `OutgoingStream.OnlyTheTruthOpens` | src/thief_peer/domain/sealing/payload.py:149-159 | A reveal completed with a nonce and an intent opens the published commitment if and only if reveal, nonce and intent are the true ones |
| `OutgoingStream.PublishedFields` | src/thief_peer/domain/sealing/payload.py:92-159 | The value under every key of a reveal: schema, step, role, sub-game, position as [row, col], the move's name, hint, the rows of the scent grid and their digest, timestamp, configuration, null cells, the answer as true, false or null; and no other key, in particular neither nonce nor intent |
| `Messages.StreamNumbering` | src/thief_peer/services/turn_messages.py:43-77 | The k-th core message carries sequence id k, and keys and correlation ids along the stream are pairwise different |
| `Messages.StreamContents` | src/thief_peer/services/turn_messages.py:43-77 | The messages of a step: its commitment hash, then its revealed payload, from the own role in the own game under the agreed configuration |
| `Sequence.AcceptedOrderIsSenderOrder` | src/thief_peer/infrastructure/sequence.py:44-71 | Over any arrivals in any interleaving of sub-games, the accepted core messages of a sub-game are exactly commitment 0, reveal 0, commitment 1, ..., the k-th being the one numbered k |
| `Sequence.OnlyTheNextIsAccepted` | src/thief_peer/infrastructure/sequence.py:54-71 | A core message is accepted if and only if it is the next of the stream |
| `Sequence.RefusalLeavesCursors` | src/thief_peer/infrastructure/sequence.py:44-52 | A refusal leaves step and phase of every sub-game; acceptance touches only its own |
| `Sequence.SequenceTracker.CheckAndAdvance` | src/thief_peer/infrastructure/sequence.py:44-71 | The mutable tracker gives the verdict and the cursors of the specification |
| `Inbox.PopRemovesFirstMatch` | src/thief_peer/infrastructure/inbox.py:76-88 | None exactly when nothing matches; otherwise the first match goes and all others keep their order |
| `Inbox.BoundedInbox.PopMatching` | src/thief_peer/infrastructure/inbox.py:76-88 | Draining and refilling in place removes exactly the first match |
| `Inbox.BoundedInbox.Enqueue` | src/thief_peer/infrastructure/inbox.py:58-67 | Refused exactly when full, and then nothing changes; otherwise appended and remembered under key and non-empty correlation id |
| `Router.AcceptanceIsExact` | src/thief_peer/infrastructure/turn_router.py:72-121 | A message is enqueued if and only if it is well-formed, bound to this game, sender and configuration, to a live peer, new under its key, in no conflict, in order, and there is room |
| `Router.BackpressureIsExact` | src/thief_peer/infrastructure/turn_router.py:114-120 | BACKPRESSURE is answered if and only if all of this holds but the queue is bounded and full |
| `Router.EveryAnswerIsExact` | src/thief_peer/infrastructure/turn_router.py:72-121 | Each answer of the turn path (the eight rejection codes, the repeat and the acceptance) as an equivalence with the message and the state before it |
| `Router.EveryAuditAnswerIsExact` | src/thief_peer/infrastructure/turn_router.py:131-153 | The same for the audit path, where a completed series still takes a result agreement |
| `Router.FullQueueRefusesTheReveal` | src/thief_peer/infrastructure/turn_router.py:114-120 | An instance: with room for one message the first commitment is accepted and the reveal after it is refused, and changes the tracker |
| `Router.AuditAcceptanceIsExact` | src/thief_peer/infrastructure/turn_router.py:131-153 | The same for audit messages: a completed series accepts nothing but a result agreement |
| `Router.RejectionChangesNothingUnlessFull` | src/thief_peer/infrastructure/turn_router.py:94-121 | A rejection leaves the receiver as it was if and only if the message was not a deliverable core message before a full queue |
| `Router.BackpressureLosesTheMessage` | src/thief_peer/infrastructure/turn_router.py:114-120 | A core message refused with BACKPRESSURE can never be delivered again, whatever happens later |
| `Router.RedeliveryIsIdempotent` | src/thief_peer/infrastructure/turn_router.py:101-104 | Redelivering any message ever accepted, at any later live moment, is acknowledged as a repeat and changes nothing |
| `Router.ConflictsAreRefused` | src/thief_peer/infrastructure/turn_router.py:105-112 | After a message was accepted, another one under its key or non-empty correlation id is refused for ever |
| `Router.EachKeyIsEnqueuedOnce` | src/thief_peer/infrastructure/turn_router.py:94-121 | Over any run each key and each non-empty correlation id is enqueued at most once and the queue stays within capacity |
| `Router.TurnRouter.HandleTurnMessage` | src/thief_peer/infrastructure/turn_router.py:94-121 | The handler over the mutable inbox and tracker refines the routing function |
| `Router.TurnRouter.HandleAuditMessage` | src/thief_peer/infrastructure/turn_router.py:131-153 | The audit path, which still welcomes a result agreement after the series is complete |
| `Gateway.AwaitIsExact` | src/thief_peer/services/gateway.py:96-111 | The bounded wait finds a reveal exactly when one is queued at some poll of its budget, takes it at the first such poll, and removes nothing when it gives up |
| `Gateway.ConsumeIsExact` | src/thief_peer/services/gateway.py:96-131 | One poll takes nothing exactly when no reveal of this sub-game and step is queued; otherwise it takes the first one and, of the commitments of the same sub-game, step and sender, the first, and everything else keeps its order |
| `Gateway.HttpOpponentGateway.AwaitOpponentReveal` | src/thief_peer/services/gateway.py:96-111 | The polling loop over the shared inbox, interleaved with arrivals, refines that wait |
| `Gateway.HttpOpponentGateway.PruneConsumedCommitment` | src/thief_peer/services/gateway.py:113-131 | Removes the first queued commitment of the consumed reveal's step and sender, nothing else |
| `Gateway.HttpOpponentGateway.DeliverTurn` | src/thief_peer/services/gateway.py:71-88 | Each answer of the transport, after whatever arrived during the call: when the inbox is touched, and what the caller is told |
| `Lockstep.LockstepIsSafe` | src/thief_peer/services/gateway.py:71-131 | Two peers in every interleaving of a whole series: they are at most one step apart, also across two sub-games, each inbox holds at most four core messages, no core message is refused, and until both have finished some peer can go on, whatever the live state of the receiver |
| `Lockstep.ProgressIsBounded` | src/thief_peer/services/gateway.py:71-131 | At most six effective actions per step of the series, and the bound is reached exactly when both have finished |
| `Lockstep.CompletionIsReachable` | src/thief_peer/services/gateway.py:71-131 | From every reachable world, for every live receiver state, a schedule of exactly the remaining actions finishes the series |
| `Lockstep.ConsumptionIsExact` | src/thief_peer/services/gateway.py:96-131 | A waiting peer finds the reveal of its own step exactly when it has been sent, and consumes it together with its commitment |
| `Sealing.CommitmentDeterminesTurn` | src/thief_peer/domain/sealing/commit.py:27-49 | Equal commitments mean equal turns in every sealed field |
| `Sealing.RevealHidesOnlyNonceAndIntent` | src/thief_peer/domain/sealing/payload.py:149-159 | The reveal carries every sealed field with its value, except nonce and intent |
| `Sealing.AuditSealedRecords` | src/thief_peer/domain/sealing/audit.py:58-95 | Verified if and only if every payload hashes to its commitment and no nonce is repeated; the mismatched steps and the reused nonces are exactly those of the records, in order |
| `ReplayChecks.WrittenStepsRoundTrip` | src/thief_peer/services/replay_checks.py:48-82 | What the log writer writes is rebuilt to the same payload, under the current and the legacy schemas |
| `ReplayChecks.LegacyTextIsRead` | src/thief_peer/services/replay_checks.py:40-45 | The cell in a legacy state text is read back for every pair of integers and every continuation |
| `ReplayChecks.VerifyLog` | src/thief_peer/services/replay_checks.py:120-141 | Raises exactly when some step cannot be read or the mismatched steps cannot be sorted, and reports nothing exactly on the accepted logs |
| `ReplayChecks.CheckStep` | src/thief_peer/services/replay_checks.py:85-139 | Bounds, role and unknown-field checks of one step: silent exactly on sound steps, raising exactly on cells that cannot be compared |
| `ReplayChecks.SoundStepIsExact` | src/thief_peer/services/replay_checks.py:85-139 | A step is sound if and only if both its cells, if any, lie on the board, a thief's step has none, a police step has no answer and no claim of victory, and under the current schema it has no key of another |
| `LogIntegrity.CommitmentBinding` | src/thief_peer/services/replay_checks.py:120-141 | Two accepted logs with the same commitments, of any schema, carry the same canonical payloads, numbered from zero, under different nonces |
| `LogIntegrity.HonestLogIsAccepted` | src/thief_peer/services/artifact_builders.py:23-42 | Checking the log of any run never raises, and it is accepted if and only if no nonce was repeated, which is when the self-audit passes |
| `LogIntegrity.TamperingIsReported` | src/thief_peer/services/replay_checks.py:48-141 | With the commitments of an honest log fixed, another log of at most as many steps is accepted if and only if each step is the honest one of its place up to leaving out keys that hold the reader's default |
| `LogIntegrity.WinClaimCanBeLeftOut` | src/thief_peer/services/replay_checks.py:73 | The tolerance is real: without its win claim every honest step is a different dictionary and passes |
| `ReplayVerifier.VerifyScores` | src/thief_peer/services/replay_checks.py:150-178 | Silent exactly when every score is that of its result and the totals are the sums, or zero for a disputed result; raises exactly on an unknown result |
| `ReplayVerifier.CheckConsistency` | src/thief_peer/services/replay_verifier.py:34-77 | The cross-artifact checks: silent exactly on consistent bundles |
| `ReplayVerifier.VerifyReplay` | src/thief_peer/services/replay_verifier.py:80-105 | Reports nothing exactly on verified bundles, and raises exactly on those that cannot be checked |
| `ReplayVerifier.WriteSeriesArtifacts` | src/thief_peer/services/series_artifacts.py:39-84 | One config and one log with its audit verdict for every game played, in order, and one result with winners and audit flags |
| `ReplayVerifier.WrittenIsConsistent` | src/thief_peer/services/artifact_builders.py:16-83 | The written bundle passes every cross-artifact check |
| `ReplayVerifier.WrittenVerdictsAgree` | src/thief_peer/services/series_artifacts.py:77-78 | A written log says verified exactly when the verifier accepts it, and an entry is marked as audited exactly when its game was audited and its log says verified |
| `ReplayVerifier.ReplayCompleteness` | src/thief_peer/services/replay_verifier.py:80-105 | For every series that ends, on any deliveries, reveals and turn caps and any submission of the opponent, checking the written bundle never raises and it is verified if and only if no game repeated a nonce |
| `ReplayVerifier.RewrittenLogsAreReported` | src/thief_peer/services/replay_verifier.py:80-105 | Rewriting the logs of a written bundle at will, with any number of steps, without showing another commitment than the published ones leaves it verified if and only if no log gained or lost a step and every step is the written one up to keys that hold the reader's default |
| `ReplayVerifier.LostRecordsAreReported` | src/thief_peer/services/replay_verifier.py:73-77 | Whatever its logs are replaced by, a written bundle is verified only with exactly as many steps in each log as records were kept |
| `ReplayVerifier.ForeignConfigsAreReported` | src/thief_peer/services/replay_verifier.py:34-72 | With other identities on one config a written bundle stays verified if and only if game uid and config hash are the agreed ones and the number is not that of another game |
| `ReplayVerifier.ForeignLogsAreReported` | src/thief_peer/services/replay_verifier.py:34-72 | The same for the game uid and the number of one log |
| `ReplayVerifier.ForeignResultsAreReported` | src/thief_peer/services/replay_verifier.py:34-72 | The same for the game uid and config hash of the result and the game uid of the declaration |
| `ReplayVerifier.ForeignStepCountsAreReported` | src/thief_peer/services/replay_verifier.py:73-77 | With another step count on one entry of the result a written bundle stays verified if and only if it is the number of records kept |
| `ReplayVerifier.ScoredIsExact` | src/thief_peer/services/replay_checks.py:150-178 | An entry is scored right if and only if it is a capture, a survival or a technical loss with the configured police and thief score of that outcome |
| `ReplayVerifier.WrittenEntry` | src/thief_peer/services/artifact_builders.py:45-83 | Each entry of a written result: its number, how its run ended, the winner, the configured scores and the number of records |
| `ReplayVerifier.WrittenResult` | src/thief_peer/services/artifact_builders.py:45-83 | Status and totals of a written result: the agreement status of a completed series, else the reason of its end; the sums of the scores, or zero when disputed |
| `ReplayVerifier.OutcomesPinScores` | src/thief_peer/services/replay_checks.py:150-178 | Two verified results with the same declared outcomes under the same scoring, both disputed or both not, have equal scores and totals |
| `Agreement.AgreementIsConsistent` | src/thief_peer/services/result_agreement.py:90-132 | In every interleaving, with messages lost, repeated or refused: never agreed on one side and disputed on the other, agreed only on an identical result, equal verdicts when both received, at most one accepted agreement message each |
| `Agreement.AgreedMeansIdenticalGames` | src/thief_peer/services/series_scoring.py:24-37 | Certified totals belong to identical per-game records |
| `Agreement.DigestIsExact` | src/thief_peer/services/result_agreement.py:27-42 | The digests of two numbered series are equal if and only if they have the same games, up to the audit flag that the digest leaves out |
| `Agreement.ByNumberSorts` | src/thief_peer/services/result_agreement.py:39 | The rows are sorted by sub-game number and are a permutation of the records |
| `Agreement.AwaitOpponentAgreement` | src/thief_peer/services/result_agreement.py:79-87 | The polling loop over the audit inbox refines the bounded wait |
| `Agreement.AwaitIsExact` | src/thief_peer/services/result_agreement.py:79-87 | The bounded wait finds an agreement message exactly when one of the opponent's is queued at some poll of its budget, and takes the first one at the first such poll |
| `Agreement.FinalizeSeriesAgreement` | src/thief_peer/services/result_agreement.py:135-170 | A technical loss is returned unchanged and nothing is polled. A completed series changes in totals and status only: agreed exactly on a message with its game count, digest and both totals; unverified with its own totals exactly without a message or with a total missing; otherwise disputed, both totals zero |
| `Agreement.CertifiedSettles` | src/thief_peer/services/result_agreement.py:116-170 | The verdict on any message, field by field, settles the series in this way |
| `Agreement.HonestMessagesSettle` | src/thief_peer/services/result_agreement.py:116-170 | Against an honest opponent a completed series is agreed, with its own totals, if and only if games and totals are the same, and otherwise disputed with zero totals |
| `Agreement.FinalSeriesAreConsistent` | src/thief_peer/services/result_agreement.py:90-170 | The two final series after any play of the exchange: never agreed on one side and disputed on the other, and equally settled when both messages were received |
| `Agreement.AgreementIsReachable` | src/thief_peer/services/result_agreement.py:90-132 | One delivery each way and one poll each settle both peers on each other's message, and they certify exactly the identical results |
| `Belief.ApplyTransition` | src/thief_peer/domain/belief_updates.py:37-56 | The in-place scatter loop computes on every cell the inflow from all sources |
| `Belief.ScatterConservesMass` | src/thief_peer/domain/belief_updates.py:37-56 | For any non-negative grid and any successors on the board the scatter keeps the total |
| `Belief.TransitionIsDiffusion` | src/thief_peer/domain/belief_updates.py:37-56 | On a distribution the result is a distribution and the closing normalisation changes nothing |
| `Belief.NormalizeRescales` | src/thief_peer/domain/belief_model.py:32-42 | Above the threshold normalising divides by the total, gives a distribution and keeps the support |
| `Belief.MaskClearsBarriers` | src/thief_peer/domain/belief_updates.py:27-34 | A barrier cell ends at zero exactly when more than 1e-12 lies off the barriers; the result is a distribution |
| `Belief.MaskRescales` | src/thief_peer/domain/belief_updates.py:27-34 | Off the barriers the mask only rescales, by the mass that is left |
| `Belief.ScentCells` | src/thief_peer/domain/belief_updates.py:59-66 | Every cell is multiplied by one plus the scent on it over one common divisor of at least one |
| `Belief.WeightingKeepsSupport` | src/thief_peer/domain/belief_updates.py:59-66 | Weights of at least one never reach the fallback and neither revive nor clear a cell |
| `Belief.HintLaw` | src/thief_peer/domain/belief_updates.py:69-93 | Posterior region mass is m(1+e)/(1+me), stated as a product, and never below m |
| `Belief.HintCells` | src/thief_peer/domain/belief_updates.py:69-93 | Every cell is multiplied by 1+e inside the region and by 1 outside over one common total, so ratios on either side are kept and zeros stay zero |
| `Belief.TrustIsCalibrated` | src/thief_peer/domain/belief_updates.py:69-85 | The hint counts in full when its region already holds its uniform share of the mass, else in proportion to the share it holds |
| `BeliefUpdate.UpdateKeepsInvariant` | src/thief_peer/services/belief_update.py:43-65 | One update keeps a distribution and the trust range; a barrier is at zero exactly when the diffusion left more than 1e-12 off the barriers; scent and hint keep the support |
| `BeliefLaws.UpdateIsTheLaw` | src/thief_peer/services/belief_update.py:43-65 | A belief and a trust are the result of an update if and only if they obey its law: the belief is in proportion to what each cell received from its neighbours, none on barriers, times one plus its scent, times one plus the effective trust on hinted cells; the effective trust is in proportion to the mass its region held, and the trust moves by 8 or 12 per cent with the entropy after the hint against that before it |
| `BeliefLaws.PredictedCells` | src/thief_peer/domain/belief_updates.py:37-56 | The diffusion step cell by cell: each orthogonal neighbour hands on its mass divided by the number of its own neighbours |
| `BeliefLaws.ProjectedCells` | src/thief_peer/strategy/entropy_escape_utility.py:24-41 | One step of the look-ahead: an open cell receives an equal share of its own mass and of that of each open neighbour, over the choices of staying and of moving to an open neighbour |
| `BeliefLaws.InflowIsLocal` | src/thief_peer/domain/belief_updates.py:37-56 | If only a cell and its neighbours hand mass to it, the sum over the whole board is that of these five cells |
| `BeliefUpdate.FullyBarredBoardRevivesBarriers` | src/thief_peer/domain/belief_model.py:37-40 | The condition is needed: on a fully barred board every barrier is revived |
| `BeliefUpdate.UpdateHintTrust` | src/thief_peer/services/belief_update.py:35-40 | Trust stays in [0.05, 0.95], never falls on a drop of entropy and never rises on a gain |
| `BeliefUpdate.TrustIsGeometric` | src/thief_peer/services/belief_update.py:29-40 | After k consistent hints the distrust is 0.92^k of what it was, up to the ceiling; after k inconsistent ones the trust is 0.88^k of what it was, down to the floor |
| `BeliefUpdate.ProjectBelief` | src/thief_peer/strategy/entropy_escape_utility.py:33-41 | The look-ahead loop refines the iterated transition |
| `BeliefUpdate.ProjectionConserves` | src/thief_peer/strategy/entropy_escape_utility.py:33-41 | Any depth keeps a distribution, and every barrier cell its probability |
| `FloodFill.ReachableArea` | src/thief_peer/strategy/entropy_escape_utility.py:44-60 | Up to the limit the bounded search counts the true connected component, never more than it and never more than limit+3 |
| `HintRegions.RegionsAreOnBoard` | src/thief_peer/domain/hint_region.py:58-77 | Every region word denotes at least one cell, and only cells of the board |
| `HintRegions.RegionsAreThirds` | src/thief_peer/domain/hint_region.py:58-77 | The cells of each region: the third of the rows or columns along the named edge, the middle without those bands, and the middle cell of a board of side one or two |
| `Scent.EmissionDelta` | src/thief_peer/domain/scent.py:46-59 | The clipped nested loop fills exactly the emission of every cell of the board |
| `Scent.EmissionByDistance` | src/thief_peer/domain/scent.py:19-25 | The emission depends only on the larger and the smaller coordinate distance, and has the six values 0.90, 0.62, 0.42, 0.20, 0.14 and 0.04 |
| `Scent.ScentClosedForm` | src/thief_peer/domain/scent.py:62-70 | After any path and for any decay in [0, 1] a cell holds the decayed sum of the emissions along the path |
| `Scent.ClampNeverBites` | src/thief_peer/domain/scent.py:62-70 | The maximum with zero never changes a value |
| `Scent.ScentBound` | src/thief_peer/domain/scent.py:62-70 | With decay 0.10 a cell is at most 9(1-0.9^n) after n turns |
| `Scent.ScentBoundIsReached` | src/thief_peer/domain/scent.py:62-70 | The bound is reached by a peer that never moves |
| `Scent.ValidGridsAreBounded` | src/thief_peer/domain/scent_validation.py:26-45 | Accepted are exactly the square grids of numbers in [0, 9.45], each cell read with its value |
| `Scent.OverflowIsExact` | src/thief_peer/domain/scent_validation.py:26-45 | Validation raises exactly on the grids whose first defect, in row order, is an integer beyond the range of a double |
| `Scent.EmittedGridsAreAccepted` | src/thief_peer/domain/scent_validation.py:26-45 | Every grid a peer can emit is accepted and arrives unchanged |
| `Gatekeeper.GatekeeperIsSafe` | src/thief_peer/services/incoming_gatekeeper.py:42-65 | In every interleaving any closed 60-second window holds at most requests_per_minute admissions, at most concurrent_requests bodies run, and the depth equals the admitted-but-unfinished callers and keeps its bound |
| `Gatekeeper.LeavingReturnsTheSlot` | src/thief_peer/services/incoming_gatekeeper.py:60-65 | Every exit, from the body or from the wait, returns depth and permit |
| `Gatekeeper.VerdictIsExact` | src/thief_peer/services/incoming_gatekeeper.py:42-60 | Refused for the queue exactly at the depth bound, for rate exactly with room but requests_per_minute admissions in the last 60 seconds, admitted exactly otherwise; only an admission is entered |
| `Gatekeeper.PermitIsExact` | src/thief_peer/services/incoming_gatekeeper.py:60-63 | A waiting caller enters the body exactly while fewer than concurrent_requests are in it |
| `Gatekeeper.IncomingGatekeeper.Enter` | src/thief_peer/services/incoming_gatekeeper.py:49-60 | The part of slot before the semaphore refines the step |
| `Gatekeeper.IncomingGatekeeper.Exit` | src/thief_peer/services/incoming_gatekeeper.py:61-65 | The exit of the semaphore and the finally block refine the step |
| `Pacer.PacerIsSafe` | src/thief_peer/infrastructure/outbound_pacer.py:41-51 | For any number of callers any closed 60-second window holds at most requests_per_minute grants |
| `Pacer.GrantIsExact` | src/thief_peer/infrastructure/outbound_pacer.py:41-51 | An attempt is granted if and only if the 60 seconds that end at it hold fewer than requests_per_minute grants, and only then entered |
| `Pacer.OutboundPacer.AwaitRateSlot` | src/thief_peer/infrastructure/outbound_pacer.py:41-51 | A lone caller with exact sleeps is granted after at most two sleeps that add up to at most 60.01 seconds |
| `SlidingWindow.WindowBound` | src/thief_peer/services/incoming_gatekeeper.py:42-46 | Grants spaced by the pruning rule never exceed the limit in any closed window |
| `Geometry.LegalMoveDirections` | src/thief_peer/domain/rules.py:24-32 | The collecting loop yields STAY and then exactly the open directions in order |
| `Geometry.ApplyMove` | src/thief_peer/domain/rules.py:35-39 | Raises exactly on an illegal direction; otherwise one row up or down, one column right or left, or nowhere, onto the start or an open cell |
| `Geometry.Board.AdjacentCells` | src/thief_peer/domain/board.py:34-42 | Exactly the orthogonal neighbours on the board |
| `Geometry.AdjacentIsDistanceOne` | src/thief_peer/domain/board.py:34-42 | Orthogonal neighbours are the cells at Manhattan distance one |

## Left out

- TurnLoop.SubGameState.DeliverTurn: the outcomes of the two deliveries are an input of the turn; TurnExchange.DeliverCommitAndReveal shows which outcomes the gateway produces. The partial progress that the exception carries for display is not modelled.
- TurnExchange.DeliverCommitAndReveal: the lifecycle state that the own router sees is fixed during an exchange.
- Agreement.FinalizeSeriesAgreement: says nothing about the own message that is sent first; what becomes of it at the other peer is part of the two-peer state machine in the same module.
- Sealing.AuditSealedRecords: lists the mismatched steps in record order; the report holds them sorted and without repetition. Where that sorting raises is part of ReplayChecks.VerifyLog.
- ReplayVerifier.VerifyReplay: config, declaration and result files are typed records with optional identity fields, so a file that does not parse or lacks a required entry is not part of the model; log steps are arbitrary dictionaries.
- ReplayVerifier.WriteSeriesArtifacts: of the declaration only the game identity is modelled, and of the audit report only its verdict.
- Transport, HTTP and MCP code, middlewares, server lifecycle and authentication: a delivery is an atomic step or a fault.
- GUI, traces, event log texts and the detail texts of lifecycle events other than the configuration hash reference, "captured", "survived" and the abort reasons.
- Configuration loading and validation: board size, start cell, threshold and scoring are parameters, required to be what validation guarantees (a non-empty board, a start cell on it, a threshold of at least one).
- The brain, the hint provider and the wording of own hints: an arbitrary legal choice and arbitrary texts.
- The optional transform of outgoing reveals, which is absent in every counted match.
- The waiting for an opponent's readiness before the first turn, poll intervals and time-outs: a wait has a number of polls, and what arrives between two polls is arbitrary.
- The control-message handler of the router and the logging of acknowledgements.
- Correlation ids and logical keys as formatted text: they are kept by their parts, which the formats keep apart.
- The concurrency semaphore of the outbound pacer: only its rate window is modelled.
- The characters of a digest and the keys of an object as a tuple: an abstract function gives the strings; the theorems hold for every such function.
- Non-ASCII decimal digits in a legacy state text, and the text of a legacy state that is formatted anew, which is kept by its parts.
- The texts of findings.
- The order in which the loader sorts file names: the checks do not depend on it.
- Float rounding, the logarithm in the entropy, random numbers and tie-breaks.
- `most_likely`, `top_k`, `expected_distance` and the utility terms built on them: only easy members.
- Mail, reports and the external-party adapter.
