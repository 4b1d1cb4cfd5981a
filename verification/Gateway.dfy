/** Delivering a turn message and waiting for the opponent's own reveal (services/gateway.py). */
module Gateway {
  import opened Options
  import opened Json
  import opened Inbox
  import opened Messages
  import opened Sequence
  import opened Router

  type TurnInbox = State<Key, Message>

  function IsReveal(subGame: int, step: int): Message -> bool {
    (m: Message) => m.mtype.Reveal? && m.subGame == subGame && m.step == step
  }

  function IsCommitmentOf(used: Message): Message -> bool {
    (m: Message) => m.mtype.Commitment? && m.subGame == used.subGame && m.step == used.step && m.sender == used.sender
  }

  function Prune(inbox: TurnInbox, used: Message): TurnInbox {
    inbox.Pop(IsCommitmentOf(used)).0
  }

  /** One poll: take the matching reveal and, with it, the commitment it consumes. */
  function Consume(inbox: TurnInbox, subGame: int, step: int): (TurnInbox, Option<Message>) {
    var (popped, found) := inbox.Pop(IsReveal(subGame, step));
    if found.None? then (popped, None) else (Prune(popped, found.value), found)
  }

  /** What the environment delivers to the router between two polls. */
  type Arrivals = nat -> seq<Incoming>

  function HandleAll(b: Binding, life: Life, t: Turns, batch: seq<Incoming>): Turns {
    if batch == [] then t
    else HandleTurn(b, life, HandleAll(b, life, t, batch[..|batch| - 1]), batch[|batch| - 1]).0
  }

  /** Poll number `k` and later ones, at most `polls` in all; messages arrive after a failed poll. */
  function Await(b: Binding, life: Life, t: Turns, subGame: int, step: int, arrivals: Arrivals, k: nat,
                 polls: nat): (Turns, Option<Message>)
    decreases polls
  {
    if polls == 0 then (t, None)
    else
      var (inbox, found) := Consume(t.inbox, subGame, step);
      if found.Some? then (t.(inbox := inbox), found)
      else Await(b, life, HandleAll(b, life, t, arrivals(k)), subGame, step, arrivals, k + 1, polls - 1)
  }

  /** The receiver's state at poll `k` if no earlier poll found anything. */
  function AtPoll(b: Binding, life: Life, t: Turns, arrivals: Arrivals, k: nat): Turns {
    if k == 0 then t else HandleAll(b, life, AtPoll(b, life, t, arrivals, k - 1), arrivals(k - 1))
  }

  predicate RevealsStep(m: Message, subGame: int, step: int) {
    m.mtype == Reveal && m.subGame == subGame && m.step == step
  }

  /** The commitment that the reveal `used` answers for. */
  predicate CommitsTo(m: Message, used: Message) {
    m.mtype == Commitment && m.subGame == used.subGame && m.step == used.step && m.sender == used.sender
  }

  ghost predicate HasReveal(t: Turns, subGame: int, step: int) {
    exists i :: 0 <= i < |t.inbox.queue| && RevealsStep(t.inbox.queue[i].message, subGame, step)
  }

  /** `after` is `queue` without its first reveal of the step, `found`, and without the first commitment
      that goes with it, if there is one. */
  ghost predicate Without(queue: seq<Item<Key, Message>>, subGame: int, step: int, found: Message,
                          after: seq<Item<Key, Message>>) {
    exists i :: && 0 <= i < |queue| && queue[i].message == found && RevealsStep(found, subGame, step)
                && (forall h :: 0 <= h < i ==> !RevealsStep(queue[h].message, subGame, step))
                && WithoutCommitment(queue[..i] + queue[i + 1..], found, after)
  }

  ghost predicate WithoutCommitment(queue: seq<Item<Key, Message>>, used: Message, after: seq<Item<Key, Message>>) {
    if forall j :: 0 <= j < |queue| ==> !CommitsTo(queue[j].message, used) then after == queue
    else exists j :: && 0 <= j < |queue| && CommitsTo(queue[j].message, used)
                     && (forall h :: 0 <= h < j ==> !CommitsTo(queue[h].message, used))
                     && after == queue[..j] + queue[j + 1..]
  }

  lemma PruneIsExact(inbox: TurnInbox, used: Message)
    ensures WithoutCommitment(inbox.queue, used, Prune(inbox, used).queue)
    ensures Prune(inbox, used) == inbox.(queue := Prune(inbox, used).queue)
  {
    hide State.Pop;
    PopRemovesFirstMatch(inbox, IsCommitmentOf(used));
    assert forall m: Message :: IsCommitmentOf(used)(m) <==> CommitsTo(m, used);
  }

  /** One poll takes nothing exactly when no reveal of the step is queued; otherwise it takes the first
      one with its first commitment, and everything else keeps its order. */
  lemma ConsumeIsExact(inbox: TurnInbox, subGame: int, step: int)
    ensures var (after, found) := Consume(inbox, subGame, step);
            if found.None? then
              && after == inbox
              && forall i :: 0 <= i < |inbox.queue| ==> !RevealsStep(inbox.queue[i].message, subGame, step)
            else
              && Without(inbox.queue, subGame, step, found.value, after.queue)
              && after == inbox.(queue := after.queue)
  {
    hide State.Pop, Prune;
    PopRemovesFirstMatch(inbox, IsReveal(subGame, step));
    assert forall m: Message :: IsReveal(subGame, step)(m) <==> RevealsStep(m, subGame, step);
    var (popped, found) := inbox.Pop(IsReveal(subGame, step));
    if found.Some? {
      PruneIsExact(popped, found.value);
    }
  }

  /** Poll `j` is the first to see a matching reveal, and `after` is what consuming it there leaves. */
  ghost predicate TakenAt(b: Binding, life: Life, t: Turns, subGame: int, step: int, arrivals: Arrivals, j: nat,
                          after: Turns) {
    var seen := AtPoll(b, life, t, arrivals, j);
    && HasReveal(seen, subGame, step)
    && (forall i :: 0 <= i < j ==> !HasReveal(AtPoll(b, life, t, arrivals, i), subGame, step))
    && after == seen.(inbox := Consume(seen.inbox, subGame, step).0)
  }

  /** The bounded wait finds a reveal exactly when one is queued at some poll of its budget, it
      takes it at the first such poll, and a wait that gives up removes nothing. */
  lemma {:induction false} AwaitIsExact(b: Binding, life: Life, t: Turns, subGame: int, step: int, arrivals: Arrivals,
                                        k: nat, polls: nat)
    requires forall j :: 0 <= j < k ==> !HasReveal(AtPoll(b, life, t, arrivals, j), subGame, step)
    ensures var (after, found) := Await(b, life, AtPoll(b, life, t, arrivals, k), subGame, step, arrivals, k, polls);
            if found.None? then
              && (forall j :: k <= j < k + polls ==> !HasReveal(AtPoll(b, life, t, arrivals, j), subGame, step))
              && after == AtPoll(b, life, t, arrivals, k + polls)
            else
              && RevealsStep(found.value, subGame, step)
              && exists j :: k <= j < k + polls && TakenAt(b, life, t, subGame, step, arrivals, j, after)
    decreases polls
  {
    hide HandleAll, Prune, State.Pop;
    if polls > 0 {
      var now := AtPoll(b, life, t, arrivals, k);
      PopMeansHasReveal(now, subGame, step);
      if HasReveal(now, subGame, step) {
        assert TakenAt(b, life, t, subGame, step, arrivals, k,
                       Await(b, life, now, subGame, step, arrivals, k, polls).0);
      } else {
        AwaitIsExact(b, life, t, subGame, step, arrivals, k + 1, polls - 1);
      }
    }
  }

  lemma PopMeansHasReveal(t: Turns, subGame: int, step: int)
    ensures t.inbox.Pop(IsReveal(subGame, step)).1.Some? <==> HasReveal(t, subGame, step)
    ensures HasReveal(t, subGame, step) ==> RevealsStep(t.inbox.Pop(IsReveal(subGame, step)).1.value, subGame, step)
    ensures !HasReveal(t, subGame, step) ==> t.inbox.Pop(IsReveal(subGame, step)).0 == t.inbox
  {
    PopRemovesFirstMatch(t.inbox, IsReveal(subGame, step));
  }

  /** The transport's answer to a delivered message. */
  datatype Transport = Unavailable | Answer(ack: Ack)

  /** The gateway's answer: an exception, a negative ack, or an ack that carries, for a reveal,
      the opponent's public turn. */
  datatype Delivery = Unreachable | Negative | Delivered(opponentTurn: Option<Message>)

  predicate Positive(ack: Ack) {
    !ack.Rejected?
  }

  class HttpOpponentGateway {
    const router: TurnRouter
    const maxPolls: nat

    constructor (router: TurnRouter, maxPolls: nat)
      ensures this.router == router && this.maxPolls == maxPolls
    {
      this.router, this.maxPolls := router, maxPolls;
    }

    method PruneConsumedCommitment(used: Message)
      modifies router.turnInbox
      ensures router.turnInbox.View() == Prune(old(router.turnInbox.View()), used)
    {
      var consumed := router.turnInbox.PopMatching(IsCommitmentOf(used));
    }

    method ReceiveAll(batch: seq<Incoming>)
      modifies router.turnInbox, router.sequence
      ensures router.View() == HandleAll(router.binding, router.CurrentLife(), old(router.View()), batch)
    {
      for i := 0 to |batch|
        invariant router.View() == HandleAll(router.binding, router.CurrentLife(), old(router.View()), batch[..i])
      {
        var ack := router.HandleTurnMessage(batch[i]);
        assert batch[..i + 1][..i] == batch[..i];
      }
      assert batch[..|batch|] == batch;
    }

    method AwaitOpponentReveal(subGame: int, step: int, arrivals: Arrivals) returns (found: Option<Message>)
      modifies router.turnInbox, router.sequence
      ensures (router.View(), found)
           == Await(router.binding, router.CurrentLife(), old(router.View()), subGame, step, arrivals, 0, maxPolls)
    {
      hide HandleTurn, HandleAll, State.Pop;
      ghost var b, life, start := router.binding, router.CurrentLife(), router.View();
      for k := 0 to maxPolls
        invariant Await(b, life, start, subGame, step, arrivals, 0, maxPolls)
               == Await(b, life, router.View(), subGame, step, arrivals, k, maxPolls - k)
      {
        PopMeansHasReveal(router.View(), subGame, step);
        found := router.turnInbox.PopMatching(IsReveal(subGame, step));
        if found.Some? {
          PruneConsumedCommitment(found.value);
          return;
        }
        ReceiveAll(arrivals(k));
      }
      found := None;
    }

    ghost function AwaitTurn(t: Turns, m: Message, arrivals: Arrivals): (Turns, Option<Message>)
      reads router.machine
    {
      Await(router.binding, router.CurrentLife(), t, m.subGame, m.step, arrivals, 0, maxPolls)
    }

    /** What the router's state is once a batch has arrived. */
    ghost function Received(t: Turns, batch: seq<Incoming>): Turns
      reads router.machine
    {
      HandleAll(router.binding, router.CurrentLife(), t, batch)
    }

    /** `transport` is what the remote call answers, and `meanwhile` what reaches the local router
        before it does. */
    method DeliverTurn(m: Message, transport: Transport, meanwhile: seq<Incoming>, arrivals: Arrivals)
      returns (d: Delivery)
      modifies router.turnInbox, router.sequence
      ensures var t := Received(old(router.View()), meanwhile);
              match transport
              case Unavailable => d == Unreachable && router.View() == t
              case Answer(ack) =>
                if !Positive(ack) then d == Negative && router.View() == t
                else if !m.mtype.Reveal? then d == Delivered(None) && router.View() == t
                else
                  var (after, found) := AwaitTurn(t, m, arrivals);
                  router.View() == after && d == if found.None? then Negative else Delivered(found)
    {
      hide Await, HandleAll;
      ReceiveAll(meanwhile);
      if transport.Unavailable? {
        return Unreachable;
      }
      if !Positive(transport.ack) {
        return Negative;
      }
      if !m.mtype.Reveal? {
        return Delivered(None);
      }
      var found := AwaitOpponentReveal(m.subGame, m.step, arrivals);
      d := if found.None? then Negative else Delivered(found);
    }
  }
}
