/** Two peers playing a whole series against each other: each delivers its commitment and its reveal
    into the other's router, waits for the other's matching reveal, prunes what it consumed, and goes
    on to the next step or the next sub-game. */
module Lockstep {
  import opened Options
  import opened Json
  import opened Inbox
  import opened Messages
  import opened Sequence
  import opened Router
  import opened Gateway

  datatype Phase = SendCommitment | SendReveal | AwaitReveal

  /** `step` counts the completed steps of the series, over all its sub-games. */
  datatype Peer = Peer(step: nat, phase: Phase, turns: Turns) {
    function PhaseIndex(): nat {
      match phase case SendCommitment => 0 case SendReveal => 1 case AwaitReveal => 2
    }

    /** How many core messages the peer has sent. */
    function Sent(): nat {
      2 * step + PhaseIndex()
    }
  }

  /** One side's identity and the contents of its turns, by game and step. */
  datatype Side = Side(session: Session, hashes: (nat, nat) -> Json, payloads: (nat, nat) -> Dict)

  /** Sub-games are numbered from `first` on; game `g` takes `steps[g]` steps. */
  datatype Setup = Setup(a: Side, b: Side, first: int, steps: seq<nat>)

  /** `rejected` records whether any core message was ever refused. */
  datatype World = World(a: Peer, b: Peer, rejected: bool)

  /** The first step of game `g`, counted over the series. */
  function Start(steps: seq<nat>, g: nat): nat
    requires g <= |steps|
  {
    if g == 0 then 0 else Start(steps, g - 1) + steps[g - 1]
  }

  function Total(steps: seq<nat>): nat {
    Start(steps, |steps|)
  }

  /** The game, among the first `g`, that step `t` of the series belongs to. */
  function GameBelow(steps: seq<nat>, t: nat, g: nat): (game: nat)
    requires g <= |steps| && t < Start(steps, g)
    ensures game < g && Start(steps, game) <= t < Start(steps, game) + steps[game]
  {
    if t >= Start(steps, g - 1) then g - 1 else GameBelow(steps, t, g - 1)
  }

  function GameAt(steps: seq<nat>, t: nat): (game: nat)
    requires t < Total(steps)
    ensures game < |steps| && Start(steps, game) <= t < Start(steps, game) + steps[game]
  {
    GameBelow(steps, t, |steps|)
  }

  function StepAt(steps: seq<nat>, t: nat): nat
    requires t < Total(steps)
  {
    t - Start(steps, GameAt(steps, t))
  }

  /** The k-th core message of a side over the whole series: the streams of its games, one after the
      other. */
  function Stream(su: Setup, s: Side, k: nat): Message
    requires k < 2 * Total(su.steps)
  {
    var g, i := GameAt(su.steps, k / 2), StepAt(su.steps, k / 2);
    if k % 2 == 0 then CommitmentMessage(s.session, su.first + g, i, s.hashes(g, i))
    else RevealMessage(s.session, su.first + g, i, s.payloads(g, i))
  }

  /** What a receiver expects of the other side. */
  function Expecting(s: Side): Binding {
    Binding(s.session.gameUid, s.session.role, s.session.config)
  }

  /** One atomic action of a peer `p` with identity `me` against its opponent `q`: the new state of
      both and whether a delivery was refused. */
  function Act(su: Setup, me: Side, life: Life, p: Peer, q: Peer): (Peer, Peer, bool) {
    if p.step >= Total(su.steps) then (p, q, false)
    else if p.phase.AwaitReveal? then
      var (inbox, found) := Consume(p.turns.inbox, su.first + GameAt(su.steps, p.step), StepAt(su.steps, p.step));
      var turns := p.turns.(inbox := inbox);
      (if found.Some? then Peer(p.step + 1, SendCommitment, turns) else p.(turns := turns), q, false)
    else
      var (turns, ack) := HandleTurn(Expecting(me), life, q.turns, Wire(Stream(su, me, p.Sent())));
      if ack.Rejected? then (p, q.(turns := turns), true)
      else (p.(phase := if p.phase.SendCommitment? then SendReveal else AwaitReveal), q.(turns := turns), false)
  }

  /** A schedule entry: whose turn it is to act, and the receiver's lifecycle state at that moment. */
  datatype Action = Action(byA: bool, life: Life)

  function Next(su: Setup, w: World, act: Action): World {
    if act.byA then
      var (p, q, bad) := Act(su, su.a, act.life, w.a, w.b);
      World(p, q, w.rejected || bad)
    else
      var (p, q, bad) := Act(su, su.b, act.life, w.b, w.a);
      World(q, p, w.rejected || bad)
  }

  function Play(su: Setup, w: World, schedule: seq<Action>): World
    decreases |schedule|
  {
    if schedule == [] then w else Play(su, Next(su, w, schedule[0]), schedule[1..])
  }

  // ----- The stream of a series -----

  lemma {:induction false} StartsAscend(steps: seq<nat>, g: nat, h: nat)
    requires g <= h <= |steps|
    ensures Start(steps, g) <= Start(steps, h)
    decreases h
  {
    if g < h {
      StartsAscend(steps, g, h - 1);
    }
  }

  /** How many of the first `k` messages of the series belong to game `g`. */
  function CountIn(steps: seq<nat>, g: nat, k: nat): nat
    requires g < |steps|
  {
    if k <= 2 * Start(steps, g) then 0
    else if k - 2 * Start(steps, g) >= 2 * steps[g] then 2 * steps[g]
    else k - 2 * Start(steps, g)
  }

  /** One more message adds one to its own game and nothing to any other. */
  lemma CountInStep(steps: seq<nat>, g: nat, k: nat)
    requires g < |steps| && k < 2 * Total(steps)
    ensures CountIn(steps, g, k + 1) == CountIn(steps, g, k) + if g == GameAt(steps, k / 2) then 1 else 0
    ensures g == GameAt(steps, k / 2) ==> CountIn(steps, g, k) == 2 * StepAt(steps, k / 2) + k % 2
  {
    var game := GameAt(steps, k / 2);
    assert k == 2 * (k / 2) + k % 2;
    if g < game {
      StartsAscend(steps, g + 1, game);
    } else if g > game {
      StartsAscend(steps, game + 1, g);
    }
  }

  /** The k-th message is the next of its game, and differs from every other in key and correlation
      id. */
  lemma SeriesNumbering(su: Setup, s: Side, j: nat, k: nat)
    requires j < 2 * Total(su.steps) && k < 2 * Total(su.steps)
    ensures var m := Stream(su, s, k);
            && IsCore(m.mtype) && WellFormed(Wire(m)) && MessageBinding(Expecting(s), m, false).None?
            && m.subGame == su.first + GameAt(su.steps, k / 2)
            && m.sequenceId == StreamIndex(m.step, m.mtype) == CountIn(su.steps, GameAt(su.steps, k / 2), k)
    ensures j != k ==> Apart(Stream(su, s, j), Stream(su, s, k))
  {
    CountInStep(su.steps, GameAt(su.steps, k / 2), k);
    assert k == 2 * (k / 2) + k % 2 && j == 2 * (j / 2) + j % 2;
    assert "commit"[0] != "reveal"[0];
  }

  // ----- The invariant -----

  function Pending(su: Setup, s: Side, from: nat, to: nat): (items: seq<Item<Key, Message>>)
    requires from <= to <= 2 * Total(su.steps)
    ensures |items| == to - from
  {
    seq(to - from, i requires 0 <= i < to - from => Item(KeyOf(Stream(su, s, from + i)), Stream(su, s, from + i)))
  }

  /** The receiver `r` has been sent the first `sent` core messages of `s` and has consumed those of
      its completed steps: its queue is exactly the rest, its tracker counts them game by game, and
      nothing later is known to it. */
  ghost predicate Linked(su: Setup, s: Side, r: Peer, sent: nat) {
    && 2 * r.step <= sent <= 2 * Total(su.steps)
    && r.turns.inbox.queue == Pending(su, s, 2 * r.step, sent)
    && (r.turns.inbox.capacity <= 0 || r.turns.inbox.capacity >= 4)
    && Counted(su, r.turns.cursors, sent)
    && forall k: nat :: sent <= k < 2 * Total(su.steps) ==> NewTo(r.turns, Stream(su, s, k))
  }

  ghost predicate Counted(su: Setup, cs: Cursors, sent: nat) {
    forall g: nat :: g < |su.steps| ==> CountedIn(su, cs, g, sent)
  }

  ghost predicate CountedIn(su: Setup, cs: Cursors, g: nat, sent: nat)
    requires g < |su.steps|
  {
    var c := CursorOf(cs, su.first + g);
    Sequence.Valid(c) && Count(c) == CountIn(su.steps, g, sent)
  }

  ghost predicate InStep(su: Setup, w: World) {
    && !w.rejected
    && Linked(su, su.b, w.a, w.b.Sent())
    && Linked(su, su.a, w.b, w.a.Sent())
    && w.a.step <= Total(su.steps) && w.b.step <= Total(su.steps)
    && (w.a.step == Total(su.steps) ==> w.a.phase.SendCommitment?)
    && (w.b.step == Total(su.steps) ==> w.b.phase.SendCommitment?)
  }

  /** Distance covered by both peers; every effective action adds one. */
  function Progress(w: World): nat {
    3 * w.a.step + w.a.PhaseIndex() + 3 * w.b.step + w.b.PhaseIndex()
  }

  /** The tracker takes the next message of the series. */
  lemma NextIsCounted(su: Setup, me: Side, cs: Cursors, k: nat)
    requires Counted(su, cs, k) && k < 2 * Total(su.steps)
    ensures var m := Stream(su, me, k);
            && CheckMessage(CursorOf(cs, m.subGame), m.step, m.mtype).Accepted?
            && Counted(su, Advance(cs, m.subGame, m.step, m.mtype), k + 1)
  {
    hide Start, GameAt, StepAt, Stream, CheckMessage, CountIn, Count, Sequence.Valid;
    var m, game := Stream(su, me, k), GameAt(su.steps, k / 2);
    SeriesNumbering(su, me, k, k);
    assert CountedIn(su, cs, game, k);
    OnlyTheNextIsAccepted(CursorOf(cs, m.subGame), m.step, m.mtype);
    var after, sent: nat := Advance(cs, m.subGame, m.step, m.mtype), k + 1;
    forall g: nat | g < |su.steps| ensures CountedIn(su, after, g, sent) {
      assert CountedIn(su, cs, g, k);
      CountInStep(su.steps, g, k);
      assert g != game ==> CursorOf(after, su.first + g) == CursorOf(cs, su.first + g);
    }
  }

  lemma DeliveryIsAccepted(su: Setup, me: Side, life: Life, q: Peer, k: nat)
    requires Linked(su, me, q, k) && !Dead(life) && k - 2 * q.step <= 3 && k < 2 * Total(su.steps)
    ensures var (turns, ack) := HandleTurn(Expecting(me), life, q.turns, Wire(Stream(su, me, k)));
            ack.Ok? && Linked(su, me, q.(turns := turns), k + 1)
  {
    hide Total, Stream, CheckMessage, CursorOf, Advance, WellFormed, MessageBinding, Counted, KeyOf;
    var m := Stream(su, me, k);
    assert NewTo(q.turns, m);
    SeriesNumbering(su, me, k, k);
    NextIsCounted(su, me, q.turns.cursors, k);
    LiveBinding(Expecting(me), m, life);
    var turns := HandleTurn(Expecting(me), life, q.turns, Wire(m)).0;
    assert turns.inbox.queue == Pending(su, me, 2 * q.step, k + 1);
    forall j: nat | k + 1 <= j < 2 * Total(su.steps) ensures NewTo(turns, Stream(su, me, j)) {
      assert NewTo(q.turns, Stream(su, me, j));
      SeriesNumbering(su, me, j, k);
    }
  }

  lemma LiveBinding(b: Binding, m: Message, life: Life)
    requires MessageBinding(b, m, false).None? && !Dead(life)
    ensures MessageBinding(b, m, Dead(life)).None?
  {
  }

  lemma ConsumePair(inbox: TurnInbox, subGame: int, step: int, c: Message, r: Message, rest: seq<Item<Key, Message>>)
    requires inbox.queue == [Item(KeyOf(c), c), Item(KeyOf(r), r)] + rest
    requires IsReveal(subGame, step)(r) && !IsReveal(subGame, step)(c) && IsCommitmentOf(r)(c)
    ensures Consume(inbox, subGame, step) == (inbox.(queue := rest), Some(r))
  {
    var wanted, queue := IsReveal(subGame, step), inbox.queue;
    assert !wanted(queue[0].message) && wanted(queue[1].message);
    assert FirstMatch(queue, wanted) == 1;
    assert queue[..1] + queue[2..] == [queue[0]] + rest;
    var popped := inbox.Pop(wanted).0;
    assert IsCommitmentOf(r)(popped.queue[0].message);
    assert popped.queue[..0] + popped.queue[1..] == rest;
  }

  lemma ConsumeNothing(inbox: TurnInbox, subGame: int, step: int)
    requires forall i :: 0 <= i < |inbox.queue| ==> !IsReveal(subGame, step)(inbox.queue[i].message)
    ensures Consume(inbox, subGame, step) == (inbox, None)
  {
    PopRemovesFirstMatch(inbox, IsReveal(subGame, step));
  }

  /** The commitment and the reveal of one step. */
  lemma StreamPair(su: Setup, s: Side, step: nat)
    requires step < Total(su.steps)
    ensures var g, i := GameAt(su.steps, step), StepAt(su.steps, step);
            && Stream(su, s, 2 * step) == CommitmentMessage(s.session, su.first + g, i, s.hashes(g, i))
            && Stream(su, s, 2 * step + 1) == RevealMessage(s.session, su.first + g, i, s.payloads(g, i))
  {
    assert (2 * step) / 2 == step && (2 * step + 1) / 2 == step && (2 * step) % 2 == 0 && (2 * step + 1) % 2 == 1;
  }

  lemma PendingPair(su: Setup, s: Side, step: nat, to: nat)
    requires 2 * step + 2 <= to <= 2 * Total(su.steps)
    ensures var c, r := Stream(su, s, 2 * step), Stream(su, s, 2 * step + 1);
            Pending(su, s, 2 * step, to) == [Item(KeyOf(c), c), Item(KeyOf(r), r)] + Pending(su, s, 2 * step + 2, to)
  {
    hide Stream, KeyOf, Total;
  }

  /** A waiting peer finds the opponent's reveal of its own step exactly when it has been sent, and
      takes away that reveal and its commitment and nothing else. */
  lemma ConsumptionIsExact(su: Setup, other: Side, p: Peer, sent: nat)
    requires Linked(su, other, p, sent) && p.step < Total(su.steps)
    ensures var g, i := GameAt(su.steps, p.step), StepAt(su.steps, p.step);
            var (inbox, found) := Consume(p.turns.inbox, su.first + g, i);
            if sent >= 2 * p.step + 2 then
              && found == Some(RevealMessage(other.session, su.first + g, i, other.payloads(g, i)))
              && Linked(su, other, Peer(p.step + 1, SendCommitment, p.turns.(inbox := inbox)), sent)
            else found.None? && inbox == p.turns.inbox
  {
    hide Consume, Total, Stream, GameAt, StepAt, Counted, KeyOf;
    var g, i := GameAt(su.steps, p.step), StepAt(su.steps, p.step);
    StreamPair(su, other, p.step);
    if sent >= 2 * p.step + 2 {
      PendingPair(su, other, p.step, sent);
      ConsumePair(p.turns.inbox, su.first + g, i, Stream(su, other, 2 * p.step), Stream(su, other, 2 * p.step + 1),
                  Pending(su, other, 2 * p.step + 2, sent));
      RestIsLinked(su, other, p, sent);
    } else {
      assert forall j :: 0 <= j < |p.turns.inbox.queue| ==>
               j == 0 && p.turns.inbox.queue[j].message == Stream(su, other, 2 * p.step);
      ConsumeNothing(p.turns.inbox, su.first + g, i);
    }
  }

  lemma RestIsLinked(su: Setup, other: Side, p: Peer, sent: nat)
    requires Linked(su, other, p, sent) && sent >= 2 * p.step + 2
    ensures var rest := p.turns.inbox.(queue := Pending(su, other, 2 * p.step + 2, sent));
            Linked(su, other, Peer(p.step + 1, SendCommitment, p.turns.(inbox := rest)), sent)
  {
    hide Total, Stream, Counted;
    assert 2 * (p.step + 1) == 2 * p.step + 2;
    var turns := p.turns.(inbox := p.turns.inbox.(queue := Pending(su, other, 2 * p.step + 2, sent)));
    forall k: nat | sent <= k < 2 * Total(su.steps) ensures NewTo(turns, Stream(su, other, k)) {
      assert NewTo(p.turns, Stream(su, other, k));
    }
  }

  /** What one action does, seen from the acting peer `p` with opponent `q`: no refusal, both links
      kept, and one unit of progress unless the peer is finished or its awaited reveal is missing. */
  lemma ActFacts(su: Setup, me: Side, other: Side, life: Life, p: Peer, q: Peer)
    requires Linked(su, other, p, q.Sent()) && Linked(su, me, q, p.Sent()) && !Dead(life)
    requires p.step <= Total(su.steps) && (p.step == Total(su.steps) ==> p.phase.SendCommitment?)
    ensures var (p', q', bad) := Act(su, me, life, p, q);
            && !bad
            && Linked(su, other, p', q'.Sent()) && Linked(su, me, q', p'.Sent())
            && q'.step == q.step && q'.phase == q.phase
            && p'.step <= Total(su.steps) && (p'.step == Total(su.steps) ==> p'.phase.SendCommitment?)
            && (if p.step == Total(su.steps) || (p.phase.AwaitReveal? && q.Sent() < 2 * p.step + 2)
                then p' == p && q' == q
                else 3 * p'.step + p'.PhaseIndex() == 3 * p.step + p.PhaseIndex() + 1)
  {
    hide Linked, Consume, HandleTurn, Total, Stream, GameAt, StepAt;
    if p.step < Total(su.steps) {
      StepsAreClose(su, me, other, p, q);
      if p.phase.AwaitReveal? {
        ConsumptionIsExact(su, other, p, q.Sent());
        LinkedKeepsPhase(su, me, q, p.Sent());
      } else {
        DeliveryIsAccepted(su, me, life, q, p.Sent());
        LinkedKeepsPhase(su, other, p, q.Sent());
      }
    }
  }

  lemma LinkedKeepsPhase(su: Setup, s: Side, r: Peer, sent: nat)
    ensures forall phase: Phase :: Linked(su, s, r.(phase := phase), sent) == Linked(su, s, r, sent)
  {
    hide Counted, NewTo, Stream;
  }

  lemma StepsAreClose(su: Setup, me: Side, other: Side, p: Peer, q: Peer)
    requires Linked(su, other, p, q.Sent()) && Linked(su, me, q, p.Sent())
    ensures p.step <= q.step + 1 && q.step <= p.step + 1
    ensures |p.turns.inbox.queue| <= 4
  {
    hide Counted, NewTo, Stream;
  }

  lemma NextKeepsInStep(su: Setup, w: World, act: Action)
    requires InStep(su, w) && !Dead(act.life)
    ensures InStep(su, Next(su, w, act))
    ensures Next(su, w, act) == w || Progress(Next(su, w, act)) == Progress(w) + 1
  {
    hide Linked, Act, Total;
    if act.byA {
      ActFacts(su, su.a, su.b, act.life, w.a, w.b);
    } else {
      ActFacts(su, su.b, su.a, act.life, w.b, w.a);
    }
  }

  /** Neither peer's router knows anything of the series yet, and both queues are empty. */
  ghost predicate FreshStart(su: Setup, w: World) {
    && w.a.step == 0 && w.b.step == 0 && w.a.phase.SendCommitment? && w.b.phase.SendCommitment? && !w.rejected
    && Linked(su, su.b, w.a, 0) && Linked(su, su.a, w.b, 0)
  }

  /** Fresh routers, unbounded or with room for at least four messages, are a fresh start. */
  lemma FreshRoutersAreAFreshStart(su: Setup, capacity: int)
    requires capacity <= 0 || capacity >= 4
    ensures var p := Peer(0, SendCommitment, FreshTurns(capacity)); FreshStart(su, World(p, p, false))
  {
    hide Stream;
    var t := FreshTurns(capacity);
    assert Pending(su, su.a, 0, 0) == [] && Pending(su, su.b, 0, 0) == [];
    forall g: nat | g < |su.steps| ensures CountedIn(su, t.cursors, g, 0) {
    }
  }

  ghost predicate AllLive(schedule: seq<Action>) {
    forall i :: 0 <= i < |schedule| ==> !Dead(schedule[i].life)
  }

  lemma {:induction false} PlayKeepsInStep(su: Setup, w: World, schedule: seq<Action>)
    requires InStep(su, w) && AllLive(schedule)
    ensures InStep(su, Play(su, w, schedule))
    decreases |schedule|
  {
    hide InStep, Next;
    if schedule != [] {
      NextKeepsInStep(su, w, schedule[0]);
      PlayKeepsInStep(su, Next(su, w, schedule[0]), schedule[1..]);
    }
  }

  predicate Finished(su: Setup, w: World) {
    w.a.step == Total(su.steps) && w.b.step == Total(su.steps)
  }

  /** Some peer makes progress when it acts, whatever live state the receiver is in. */
  ghost predicate CanGoOn(su: Setup, w: World) {
    forall life: Life :: !Dead(life) ==> exists byA :: Progress(Next(su, w, Action(byA, life))) == Progress(w) + 1
  }

  /** Two-peer lockstep over a whole series, in every interleaving: the peers are at most one step
      apart, also across the border of two sub-games, each inbox holds at most four core messages, no
      core message is ever refused, and until both peers have finished some peer can go on. */
  lemma LockstepIsSafe(su: Setup, w: World, schedule: seq<Action>)
    requires FreshStart(su, w) && AllLive(schedule)
    ensures var u := Play(su, w, schedule);
            && !u.rejected
            && u.a.step <= u.b.step + 1 && u.b.step <= u.a.step + 1
            && |u.a.turns.inbox.queue| <= 4 && |u.b.turns.inbox.queue| <= 4
            && (!Finished(su, u) ==> CanGoOn(su, u))
  {
    hide Linked, Play, CanGoOn;
    PlayKeepsInStep(su, w, schedule);
    var u := Play(su, w, schedule);
    StepsAreClose(su, su.a, su.b, u.a, u.b);
    StepsAreClose(su, su.b, su.a, u.b, u.a);
    if !Finished(su, u) {
      SomePeerCanAct(su, u);
    }
  }

  lemma SomePeerCanAct(su: Setup, u: World)
    requires InStep(su, u) && !Finished(su, u)
    ensures CanGoOn(su, u)
  {
    hide Next, Linked, Total;
    forall life: Life | !Dead(life) ensures exists byA :: Progress(Next(su, u, Action(byA, life))) == Progress(u) + 1 {
      var byA := WhoCanAct(su, u, life);
      assert Progress(Next(su, u, Action(byA, life))) == Progress(u) + 1;
    }
  }

  lemma WhoCanAct(su: Setup, u: World, life: Life) returns (byA: bool)
    requires InStep(su, u) && !Finished(su, u) && !Dead(life)
    ensures Progress(Next(su, u, Action(byA, life))) == Progress(u) + 1
  {
    hide Act, Linked, Total;
    ActFacts(su, su.a, su.b, life, u.a, u.b);
    ActFacts(su, su.b, su.a, life, u.b, u.a);
    byA := u.a.step < Total(su.steps) && !(u.a.phase.AwaitReveal? && u.b.Sent() < 2 * u.a.step + 2);
  }

  /** No run makes more than six effective actions per step of the series, and it has made them all
      exactly when both peers have finished. */
  lemma ProgressIsBounded(su: Setup, w: World, schedule: seq<Action>)
    requires FreshStart(su, w) && AllLive(schedule)
    ensures Progress(Play(su, w, schedule)) <= 6 * Total(su.steps)
    ensures Progress(Play(su, w, schedule)) == 6 * Total(su.steps) <==> Finished(su, Play(su, w, schedule))
  {
    hide Linked, Play;
    PlayKeepsInStep(su, w, schedule);
  }

  /** Completion: from every reachable world, for every live receiver state, letting an able peer act
      as often as there is progress left finishes the series. */
  lemma {:induction false} CompletionIsReachable(su: Setup, u: World, life: Life) returns (schedule: seq<Action>)
    requires InStep(su, u) && !Dead(life)
    ensures AllLive(schedule) && |schedule| == 6 * Total(su.steps) - Progress(u)
    ensures Finished(su, Play(su, u, schedule))
    decreases 6 * Total(su.steps) - Progress(u)
  {
    hide Linked, Next, Total;
    if Finished(su, u) {
      schedule := [];
    } else {
      var byA := WhoCanAct(su, u, life);
      var act := Action(byA, life);
      NextKeepsInStep(su, u, act);
      ProgressLeft(su, Next(su, u, act));
      var rest := CompletionIsReachable(su, Next(su, u, act), life);
      schedule := [act] + rest;
      assert schedule[1..] == rest;
    }
  }

  lemma ProgressLeft(su: Setup, u: World)
    requires InStep(su, u)
    ensures Progress(u) <= 6 * Total(su.steps)
  {
    hide Linked;
  }
}
