/** Delivering the commitment and then the reveal of one turn (services/turn_exchange.py): where the
    two outcomes that a turn depends on come from. */
module TurnExchange {
  import opened Options
  import opened Json
  import opened Sealing
  import opened Inbox
  import opened Messages
  import opened Router
  import opened Gateway
  import opened OutgoingStream
  import E = TurnEngine

  /** What the environment does during one exchange: the answers of the two remote calls, and what
      reaches the local router before each of them and between the polls of the wait. */
  datatype Traffic = Traffic(commit: Transport, beforeCommit: seq<Incoming>, answer: Transport,
                             beforeAnswer: seq<Incoming>, arrivals: Arrivals)

  function CommitOutcome(t: Transport): E.Delivery<()> {
    if t.Unavailable? then E.Unreachable else if Positive(t.ack) then E.Acked(()) else E.Refused
  }

  /** The public turn inside a reveal message. */
  function RevealBody(m: Message): Dict {
    if m.body.Obj? then m.body.fields else map[]
  }

  /** The outcome of the reveal: it may be refused, or no reveal of the opponent may arrive in time. */
  function AnswerOutcome(t: Transport, found: Option<Message>): E.Delivery<Dict> {
    if t.Unavailable? then E.Unreachable
    else if !Positive(t.ack) || found.None? then E.Refused
    else E.Acked(RevealBody(found.value))
  }

  /** The state of the receiver when the second call returns. */
  ghost function AtAnswer(b: Binding, life: Life, t: Turns, traffic: Traffic): Turns {
    HandleAll(b, life, HandleAll(b, life, t, traffic.beforeCommit), traffic.beforeAnswer)
  }

  /** The wait for the opponent's reveal, from there on. */
  ghost function Waited(b: Binding, life: Life, t: Turns, r: OwnRecord, traffic: Traffic,
                        polls: nat): (Turns, Option<Message>) {
    Await(b, life, AtAnswer(b, life, t, traffic), r.turn.subGame, r.turn.step, traffic.arrivals, 0, polls)
  }

  /** The commitment first; the reveal only after a positive answer; `answer` is meaningless before. */
  method DeliverCommitAndReveal(gateway: HttpOpponentGateway, s: Session, r: OwnRecord, traffic: Traffic)
    returns (commit: E.Delivery<()>, answer: E.Delivery<Dict>)
    modifies gateway.router.turnInbox, gateway.router.sequence
    ensures commit == CommitOutcome(traffic.commit)
    ensures commit.Acked? <==> traffic.commit.Answer? && (traffic.commit.ack.Ok? || traffic.commit.ack.Idempotent?)
    ensures var b, life, before := gateway.router.binding, gateway.router.CurrentLife(), old(gateway.router.View());
            if !commit.Acked? then
              answer == E.Refused && gateway.router.View() == HandleAll(b, life, before, traffic.beforeCommit)
            else if traffic.answer.Unavailable? || !Positive(traffic.answer.ack) then
              && answer == AnswerOutcome(traffic.answer, None)
              && gateway.router.View() == AtAnswer(b, life, before, traffic)
            else
              var (after, found) := Waited(b, life, before, r, traffic, gateway.maxPolls);
              answer == AnswerOutcome(traffic.answer, found) && gateway.router.View() == after
  {
    hide HandleAll, Await, PublicReveal, PayloadOf;
    var first := gateway.DeliverTurn(CommitmentOf(s, r), traffic.commit, traffic.beforeCommit, traffic.arrivals);
    commit := CommitOutcome(traffic.commit);
    if !commit.Acked? {
      return commit, E.Refused;
    }
    var second := gateway.DeliverTurn(RevealOf(s, r), traffic.answer, traffic.beforeAnswer, traffic.arrivals);
    answer := match second
      case Unreachable => E.Unreachable
      case Negative => E.Refused
      case Delivered(found) => if found.None? then E.Refused else E.Acked(RevealBody(found.value));
  }

  /** An acknowledged exchange shows the opponent's reveal of this very step, taken at the first poll
      at which one was queued; a positive answer with no acknowledgement means that none was queued at
      any poll of the budget. */
  lemma AcknowledgedMeansRevealed(b: Binding, life: Life, t: Turns, r: OwnRecord, traffic: Traffic, polls: nat)
    requires traffic.answer.Answer? && Positive(traffic.answer.ack)
    ensures var start := AtAnswer(b, life, t, traffic);
            var (after, found) := Waited(b, life, t, r, traffic, polls);
            var answer := AnswerOutcome(traffic.answer, found);
            if answer.Acked? then
              && found.Some? && RevealsStep(found.value, r.turn.subGame, r.turn.step)
              && answer.info == RevealBody(found.value)
              && exists j :: 0 <= j < polls
                   && TakenAt(b, life, start, r.turn.subGame, r.turn.step, traffic.arrivals, j, after)
            else
              && answer == E.Refused
              && forall j :: 0 <= j < polls ==>
                   !HasReveal(AtPoll(b, life, start, traffic.arrivals, j), r.turn.subGame, r.turn.step)
  {
    hide Await, HandleAll, TakenAt, HasReveal;
    var start := AtAnswer(b, life, t, traffic);
    assert AtPoll(b, life, start, traffic.arrivals, 0) == start;
    AwaitIsExact(b, life, start, r.turn.subGame, r.turn.step, traffic.arrivals, 0, polls);
    var (after, found) := Waited(b, life, t, r, traffic, polls);
    if found.None? {
      assert forall j :: 0 <= j < polls ==>
        !HasReveal(AtPoll(b, life, start, traffic.arrivals, j), r.turn.subGame, r.turn.step);
    }
  }
}
