/** The peer's lifecycle machine and its append-only log (domain/state_machine). */
module Lifecycle {
  import opened Options

  datatype PeerState =
    | Initializing | ServerReady | Negotiating | Signed | Waiting | Thinking | Committing
    | WaitingForAck | Revealing | Verifying | SubGameOver | Auditing | SeriesComplete | Error | Quit

  datatype EventKind =
    | ServerStarted | BeginNegotiation | TermsSigned | SubGameStart | BeginTurn | MoveDecided
    | CommitSent | AckReceived | RevealSent | TurnVerified | SubGameEnded | BeginAudit
    | NextSubGame | SeriesAuditDone | ErrorOccurred | QuitRequested

  datatype Event = Event(kind: EventKind, detail: string)

  /** The ordinary flow. */
  function Table(s: PeerState, kind: EventKind): Option<PeerState> {
    match (s, kind)
    case (Initializing, ServerStarted) => Some(ServerReady)
    case (ServerReady, BeginNegotiation) => Some(Negotiating)
    case (Negotiating, TermsSigned) => Some(Signed)
    case (Signed, SubGameStart) => Some(Waiting)
    case (Waiting, BeginTurn) => Some(Thinking)
    case (Thinking, MoveDecided) => Some(Committing)
    case (Committing, CommitSent) => Some(WaitingForAck)
    case (WaitingForAck, AckReceived) => Some(Revealing)
    case (Revealing, RevealSent) => Some(Verifying)
    case (Verifying, TurnVerified) => Some(Waiting)
    case (Verifying, SubGameEnded) => Some(SubGameOver)
    case (SubGameOver, BeginAudit) => Some(Auditing)
    case (Auditing, NextSubGame) => Some(Waiting)
    case (Auditing, SeriesAuditDone) => Some(SeriesComplete)
    case _ => None
  }

  predicate Guarded(s: PeerState, e: Event) {
    s.Negotiating? && e.kind.TermsSigned? && e.detail == ""
  }

  /** The next state, or None for a rejected event. */
  function Resolve(s: PeerState, e: Event): Option<PeerState> {
    if s.SeriesComplete? || s.Quit? then None
    else if e.kind.ErrorOccurred? then (if s.Error? then None else Some(Error))
    else if e.kind.QuitRequested? then Some(Quit)
    else if s.Error? || Guarded(s, e) then None
    else Table(s, e.kind)
  }

  datatype LogEntry = LogEntry(index: nat, source: PeerState, event: Event, target: Option<PeerState>)

  datatype Machine = Machine(state: PeerState, history: seq<LogEntry>) {
    /** Every attempt is logged; only an accepted one moves the state. */
    function Apply(e: Event): Machine {
      var target := Resolve(state, e);
      Machine(if target.Some? then target.value else state, history + [LogEntry(|history|, state, e, target)])
    }

    predicate Accepts(e: Event) {
      Resolve(state, e).Some?
    }
  }

  const FRESH_MACHINE := Machine(Initializing, [])

  /** The state obtained by folding the accepted entries of a log over a start state. */
  function Fold(start: PeerState, history: seq<LogEntry>): PeerState {
    if history == [] then start
    else
      var last := history[|history| - 1];
      if last.target.Some? then last.target.value else Fold(start, history[..|history| - 1])
  }

  /** The log explains the state: entries are numbered, each starts where its predecessors led, each
      verdict is the resolution of its event, and folding the accepted ones gives the state. */
  ghost predicate Explained(start: PeerState, m: Machine) {
    && (forall i :: 0 <= i < |m.history| ==>
         && m.history[i].index == i
         && m.history[i].source == Fold(start, m.history[..i])
         && m.history[i].target == Resolve(m.history[i].source, m.history[i].event))
    && m.state == Fold(start, m.history)
  }

  lemma FoldStep(start: PeerState, history: seq<LogEntry>, entry: LogEntry)
    ensures Fold(start, history + [entry]) == if entry.target.Some? then entry.target.value else Fold(start, history)
  {
    assert (history + [entry])[..|history|] == history;
  }

  lemma ApplyKeepsExplained(start: PeerState, m: Machine, e: Event)
    requires Explained(start, m)
    ensures Explained(start, m.Apply(e))
  {
    hide Resolve, Fold;
    var after := m.Apply(e);
    FoldStep(start, m.history, after.history[|m.history|]);
    assert after.history[..|m.history|] == m.history;
    forall i | 0 <= i < |after.history|
      ensures after.history[i].index == i
      ensures after.history[i].source == Fold(start, after.history[..i])
      ensures after.history[i].target == Resolve(after.history[i].source, after.history[i].event)
    {
      if i < |m.history| {
        assert after.history[..i] == m.history[..i];
      }
    }
  }

  /** No event was ever rejected. */
  ghost predicate Clean(m: Machine) {
    forall i :: 0 <= i < |m.history| ==> m.history[i].target.Some?
  }

  /** The states that no event leaves. */
  predicate Final(s: PeerState) {
    s.SeriesComplete? || s.Quit?
  }

  /** ERROR is reachable from every live state, permits nothing but QUIT, and INITIALIZING can never
      be re-entered. */
  lemma ErrorAndRestartRules(s: PeerState, e: Event)
    ensures Final(s) ==> Resolve(s, e).None?
    ensures s.Error? ==> (Resolve(s, e).Some? <==> e.kind.QuitRequested?) && Resolve(s, e) != Some(Error)
    ensures !Final(s) && !s.Error? ==> Resolve(s, Event(ErrorOccurred, e.detail)) == Some(Error)
    ensures Resolve(s, e) != Some(Initializing)
  {
  }

  /** The place of a state on the way through a series of one sub-game of one turn. */
  function Place(s: PeerState): int {
    match s
    case Initializing => 0 case ServerReady => 1 case Negotiating => 2 case Signed => 3 case Waiting => 4
    case Thinking => 5 case Committing => 6 case WaitingForAck => 7 case Revealing => 8 case Verifying => 9
    case SubGameOver => 10 case Auditing => 11 case SeriesComplete => 12
    case Error => -1 case Quit => -2
  }

  /** The place from which an event leads one place further; the two ways back have none. */
  function Leaves(kind: EventKind): int {
    match kind
    case ServerStarted => 0 case BeginNegotiation => 1 case TermsSigned => 2 case SubGameStart => 3 case BeginTurn => 4
    case MoveDecided => 5 case CommitSent => 6 case AckReceived => 7 case RevealSent => 8 case SubGameEnded => 9
    case BeginAudit => 10 case SeriesAuditDone => 11
    case _ => -9
  }

  /** One place further on, or back to WAITING for another turn or another sub-game. */
  predicate Ordinary(s: PeerState, kind: EventKind, t: PeerState) {
    || (Place(s) == Leaves(kind) && Place(t) == Leaves(kind) + 1)
    || (s.Verifying? && kind.TurnVerified? && t.Waiting?)
    || (s.Auditing? && kind.NextSubGame? && t.Waiting?)
  }

  lemma TableIsTheFlow(s: PeerState, kind: EventKind)
    ensures match Table(s, kind)
            case Some(t) => Ordinary(s, kind, t)
            case None => Place(s) != Leaves(kind) && !(s.Verifying? && kind.TurnVerified?)
                         && !(s.Auditing? && kind.NextSubGame?)
  {
    match s
    case Initializing => case ServerReady => case Negotiating => case Signed => case Waiting =>
    case Thinking => case Committing => case WaitingForAck => case Revealing => case Verifying =>
    case SubGameOver => case Auditing => case SeriesComplete => case Error => case Quit =>
  }

  lemma PlacesDiffer(s: PeerState, t: PeerState)
    requires Place(s) == Place(t)
    ensures s == t
  {
  }

  lemma FlowIsAFunction(s: PeerState, kind: EventKind, t: PeerState, u: PeerState)
    requires Ordinary(s, kind, t) && Ordinary(s, kind, u)
    ensures t == u
  {
    hide Place;
    assert Place(Verifying) == 9 && Place(Auditing) == 11 by { TwoPlaces(); }
    if Place(t) == Place(u) {
      PlacesDiffer(t, u);
    }
  }

  lemma TwoPlaces()
    ensures Place(Verifying) == 9 && Place(Auditing) == 11
  {
  }

  /** The transitions are exactly: from a state that is not final, QUIT to the end and, unless already
      there, a failure to ERROR; and otherwise a step of the ordinary flow, where signing the terms
      needs what was signed. */
  lemma TransitionsAreExact(s: PeerState, e: Event, t: PeerState)
    ensures Resolve(s, e) == Some(t) <==>
              && s != SeriesComplete && s != Quit
              && match e.kind
                 case QuitRequested => t == Quit
                 case ErrorOccurred => s != Error && t == Error
                 case _ => Ordinary(s, e.kind, t) && (e.kind.TermsSigned? ==> e.detail != "")
  {
    hide Table, Place, Leaves;
    TableIsTheFlow(s, e.kind);
    ErrorHasNoFlow(e.kind);
    NegotiatingSigns(s, e.kind);
    if Table(s, e.kind).Some? && Ordinary(s, e.kind, t) {
      FlowIsAFunction(s, e.kind, t, Table(s, e.kind).value);
    }
  }

  lemma ErrorHasNoFlow(kind: EventKind)
    ensures Place(Error) != Leaves(kind)
  {
  }

  lemma NegotiatingSigns(s: PeerState, kind: EventKind)
    ensures kind.TermsSigned? && Place(s) == Leaves(kind) ==> s.Negotiating?
  {
  }

  class PeerStateMachine {
    var state: PeerState
    var history: seq<LogEntry>

    function View(): Machine
      reads this
    {
      Machine(state, history)
    }

    constructor ()
      ensures View() == FRESH_MACHINE
    {
      state, history := Initializing, [];
    }

    /** Logs the attempt; `accepted` is false where the original raises. */
    method Apply(e: Event) returns (accepted: bool)
      modifies this
      ensures View() == old(View()).Apply(e)
      ensures accepted == old(View()).Accepts(e)
    {
      var target := Resolve(state, e);
      history := history + [LogEntry(|history|, state, e, target)];
      accepted := target.Some?;
      if accepted {
        state := target.value;
      }
    }

    method ForceError(detail: string) returns (accepted: bool)
      modifies this
      ensures View() == old(View()).Apply(Event(ErrorOccurred, detail))
      ensures accepted == !(Final(old(state)) || old(state).Error?)
    {
      accepted := Apply(Event(ErrorOccurred, detail));
    }
  }
}
