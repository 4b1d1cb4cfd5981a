/** Validation and routing of incoming turn and audit messages (infrastructure/turn_router.py). */
module Router {
  import opened Options
  import opened Json
  import opened Inbox
  import opened Messages
  import opened Sequence
  import L = Lifecycle

  datatype Code =
    | Malformed | WrongRole | WrongGame | ConfigMismatch | NotLive | ConflictingDuplicate | OutOfSequence | Backpressure

  datatype Ack = Ok | Idempotent | Rejected(code: Code)

  /** What this peer expects of every sender. */
  datatype Binding = Binding(gameUid: string, sender: Role, config: string)

  /** The lifecycle state, if the router shares a machine. */
  type Life = Option<L.PeerState>

  predicate Dead(life: Life) {
    life.Some? && (life.value.Error? || life.value.SeriesComplete? || life.value.Quit?)
  }

  predicate DeadForAudit(life: Life) {
    life.Some? && (life.value.Error? || life.value.Quit?)
  }

  function BindingReason(b: Binding, sender: Role, gameUid: string, config: Option<string>, dead: bool): Option<Code> {
    if sender != b.sender then Some(WrongRole)
    else if gameUid != b.gameUid then Some(WrongGame)
    else if config.Some? && config.value != b.config then Some(ConfigMismatch)
    else if dead then Some(NotLive)
    else None
  }

  datatype Turns = Turns(inbox: State<Key, Message>, cursors: Cursors)

  function MessageBinding(b: Binding, m: Message, dead: bool): Option<Code> {
    BindingReason(b, m.sender, m.gameUid, m.config, dead)
  }

  /** The receive_turn path: validate, filter duplicates, check the order, enqueue. */
  function HandleTurn(b: Binding, life: Life, t: Turns, incoming: Incoming): (Turns, Ack) {
    if !WellFormed(incoming) then (t, Rejected(Malformed))
    else
      var m := incoming.message;
      var reason := MessageBinding(b, m, Dead(life));
      if reason.Some? then (t, Rejected(reason.value))
      else if t.inbox.IsReplay(KeyOf(m), m) then (t, Idempotent)
      else if t.inbox.IsConflict(KeyOf(m), m) || t.inbox.CorrelationConflict(m.correlation, m) then
        (t, Rejected(ConflictingDuplicate))
      else Sequenced(t, m)
  }

  /** The last two gates: the tracker advances before the queue is asked for room. */
  function Sequenced(t: Turns, m: Message): (Turns, Ack) {
    var cursors := Advance(t.cursors, m.subGame, m.step, m.mtype);
    if !CheckMessage(CursorOf(t.cursors, m.subGame), m.step, m.mtype).Accepted? then
      (Turns(t.inbox, cursors), Rejected(OutOfSequence))
    else
      var enqueued := t.inbox.Enqueue(KeyOf(m), m, m.correlation);
      if enqueued.None? then (Turns(t.inbox, cursors), Rejected(Backpressure))
      else (Turns(enqueued.value, cursors), Ok)
  }

  /** What a message needs to get as far as the queue: well-formed, from the expected sender in the
      expected game under the agreed configuration, to a live peer, new under its key, in no conflict,
      and the next of its stream (or of the current step, if it is not a core message). */
  ghost predicate Deliverable(b: Binding, life: Life, t: Turns, incoming: Incoming) {
    && WellFormed(incoming)
    && var m := incoming.message;
       && m.sender == b.sender && m.gameUid == b.gameUid && (m.config.None? || m.config.value == b.config)
       && !Dead(life)
       && KeyOf(m) !in t.inbox.byKey
       && (m.correlation in t.inbox.byCorrelation ==> t.inbox.byCorrelation[m.correlation] == m)
       && (IsCore(m.mtype) ==> StreamIndex(m.step, m.mtype) == Count(CursorOf(t.cursors, m.subGame)))
       && (!IsCore(m.mtype) ==> m.step == CursorOf(t.cursors, m.subGame).step)
  }

  /** Acceptance is exact: a message is enqueued if and only if it is deliverable and there is room. */
  lemma AcceptanceIsExact(b: Binding, life: Life, t: Turns, incoming: Incoming)
    requires ValidCursors(t.cursors)
    ensures HandleTurn(b, life, t, incoming).1.Ok? <==>
              Deliverable(b, life, t, incoming) && (t.inbox.capacity <= 0 || |t.inbox.queue| < t.inbox.capacity)
  {
    if incoming.Wire? {
      var m := incoming.message;
      assert Sequence.Valid(CursorOf(t.cursors, m.subGame));
      if IsCore(m.mtype) {
        OnlyTheNextIsAccepted(CursorOf(t.cursors, m.subGame), m.step, m.mtype);
      }
    }
  }

  /** So is BACKPRESSURE: the message is deliverable, and the queue is bounded and full. */
  lemma BackpressureIsExact(b: Binding, life: Life, t: Turns, incoming: Incoming)
    requires ValidCursors(t.cursors)
    ensures HandleTurn(b, life, t, incoming).1 == Rejected(Backpressure) <==>
              Deliverable(b, life, t, incoming) && 0 < t.inbox.capacity <= |t.inbox.queue|
  {
    if incoming.Wire? {
      var m := incoming.message;
      assert Sequence.Valid(CursorOf(t.cursors, m.subGame));
      if IsCore(m.mtype) {
        OnlyTheNextIsAccepted(CursorOf(t.cursors, m.subGame), m.step, m.mtype);
      }
    }
  }

  /** Nothing is wrong with who sent the message, in which game and under which configuration. */
  predicate Bound(b: Binding, sender: Role, gameUid: string, config: Option<string>) {
    sender == b.sender && gameUid == b.gameUid && (config.Some? ==> config.value == b.config)
  }

  /** The first of the three that is wrong decides. */
  ghost predicate BindingAnswers(b: Binding, sender: Role, gameUid: string, config: Option<string>, ack: Ack) {
    && (ack == Rejected(WrongRole) <==> sender != b.sender)
    && (ack == Rejected(WrongGame) <==> sender == b.sender && gameUid != b.gameUid)
    && (ack == Rejected(ConfigMismatch) <==>
          sender == b.sender && gameUid == b.gameUid && config.Some? && config.value != b.config)
  }

  /** No remembered message has the key, and none but `m` itself the correlation id. */
  predicate IsNew(t: Turns, m: Message) {
    && Key(m.subGame, m.step, m.mtype) !in t.inbox.byKey
    && (m.correlation in t.inbox.byCorrelation ==> t.inbox.byCorrelation[m.correlation] == m)
  }

  /** Remembered, under its key, as it is. */
  predicate IsKnown(t: Turns, m: Message) {
    var key := Key(m.subGame, m.step, m.mtype);
    key in t.inbox.byKey && t.inbox.byKey[key] == m
  }

  /** The next of its stream, or of the current step if it is no core message. */
  predicate InOrder(t: Turns, m: Message) {
    var c := CursorOf(t.cursors, m.subGame);
    match m.mtype
    case Commitment => 2 * m.step == Count(c)
    case Reveal => 2 * m.step + 1 == Count(c)
    case _ => m.step == c.step
  }

  /** Every answer of the turn path is exact: each of the eight codes, the repeat and the acceptance,
      as an equivalence with the message and the state before it. */
  lemma EveryAnswerIsExact(b: Binding, life: Life, t: Turns, incoming: Incoming)
    requires ValidCursors(t.cursors)
    ensures var ack := HandleTurn(b, life, t, incoming).1;
            && (ack == Rejected(Malformed) <==>
                  incoming.Garbage? || (incoming.message.mtype.Reveal? && !incoming.message.body.Obj?))
            && (ack != Rejected(Malformed) ==>
                  var m := incoming.message;
                  var bound := Bound(b, m.sender, m.gameUid, m.config);
                  var over := life.Some? && life.value in {L.Error, L.SeriesComplete, L.Quit};
                  && BindingAnswers(b, m.sender, m.gameUid, m.config, ack)
                  && (ack == Rejected(NotLive) <==> bound && over)
                  && (ack == Idempotent <==> bound && !over && IsKnown(t, m))
                  && (ack == Rejected(ConflictingDuplicate) <==> bound && !over && !IsKnown(t, m) && !IsNew(t, m))
                  && (ack == Rejected(OutOfSequence) <==> bound && !over && IsNew(t, m) && !InOrder(t, m))
                  && (ack == Rejected(Backpressure) <==>
                        bound && !over && IsNew(t, m) && InOrder(t, m) && 0 < t.inbox.capacity <= |t.inbox.queue|)
                  && (ack == Ok <==>
                        && bound && !over && IsNew(t, m) && InOrder(t, m)
                        && (t.inbox.capacity <= 0 || |t.inbox.queue| < t.inbox.capacity)))
  {
    hide Advance, CheckMessage, Sequence.Valid, Count;
    if incoming.Wire? {
      OrderIsExact(t, incoming.message);
    }
  }

  lemma OrderIsExact(t: Turns, m: Message)
    requires ValidCursors(t.cursors)
    ensures CheckMessage(CursorOf(t.cursors, m.subGame), m.step, m.mtype).Accepted? <==> InOrder(t, m)
  {
    assert Sequence.Valid(CursorOf(t.cursors, m.subGame));
    if IsCore(m.mtype) {
      OnlyTheNextIsAccepted(CursorOf(t.cursors, m.subGame), m.step, m.mtype);
    }
  }

  /** Two receiver states that no later message can tell apart. */
  ghost predicate Same(t: Turns, u: Turns) {
    t.inbox == u.inbox && forall g :: CursorOf(t.cursors, g) == CursorOf(u.cursors, g)
  }

  ghost predicate ValidCursors(cs: Cursors) {
    forall g :: Sequence.Valid(CursorOf(cs, g))
  }

  /** A rejection changes nothing, with exactly one exception: a core message that could have been
      delivered, had the queue not been full, has already advanced the tracker. */
  lemma RejectionChangesNothingUnlessFull(b: Binding, life: Life, t: Turns, incoming: Incoming)
    requires ValidCursors(t.cursors) && HandleTurn(b, life, t, incoming).1.Rejected?
    ensures Same(HandleTurn(b, life, t, incoming).0, t) <==>
              !(&& Deliverable(b, life, t, incoming) && IsCore(incoming.message.mtype)
                && 0 < t.inbox.capacity <= |t.inbox.queue|)
  {
    hide Deliverable;
    BackpressureIsExact(b, life, t, incoming);
    RejectionChangesByCode(b, life, t, incoming);
    assert Deliverable(b, life, t, incoming) ==> incoming.Wire? by { DeliverableIsWire(b, life, t, incoming); }
  }

  lemma DeliverableIsWire(b: Binding, life: Life, t: Turns, incoming: Incoming)
    ensures Deliverable(b, life, t, incoming) ==> incoming.Wire?
  {
  }

  /** The same by the returned code. */
  lemma RejectionChangesByCode(b: Binding, life: Life, t: Turns, incoming: Incoming)
    requires ValidCursors(t.cursors) && HandleTurn(b, life, t, incoming).1.Rejected?
    ensures var (after, ack) := HandleTurn(b, life, t, incoming);
            Same(after, t) <==> !(ack.code.Backpressure? && IsCore(incoming.message.mtype))
  {
    var (after, ack) := HandleTurn(b, life, t, incoming);
    if ack.code.OutOfSequence? || ack.code.Backpressure? {
      var m := incoming.message;
      forall g | g != m.subGame || !IsCore(m.mtype) || ack.code.OutOfSequence?
        ensures CursorOf(after.cursors, g) == CursorOf(t.cursors, g)
      {
        RefusalLeavesCursors(t.cursors, m.subGame, m.step, m.mtype, g);
      }
      if ack.code.Backpressure? && IsCore(m.mtype) {
        assert CursorOf(after.cursors, m.subGame) != CursorOf(t.cursors, m.subGame);
      }
    }
  }

  /** The exception happens: a router with room for one message accepts the first commitment of a
      sub-game and loses the reveal that follows it. */
  lemma FullQueueRefusesTheReveal(s: Session, subGame: int, hashes: nat -> Json, payloads: nat -> Dict)
    ensures var b := Binding(s.gameUid, s.role, s.config);
            var (first, ok) := HandleTurn(b, None, FreshTurns(1), Wire(StreamMessage(s, subGame, hashes, payloads, 0)));
            var (second, refused) := HandleTurn(b, None, first, Wire(StreamMessage(s, subGame, hashes, payloads, 1)));
            ok.Ok? && refused == Rejected(Backpressure) && !Same(second, first)
  {
    var b := Binding(s.gameUid, s.role, s.config);
    var first := HandleTurn(b, None, FreshTurns(1), Wire(StreamMessage(s, subGame, hashes, payloads, 0))).0;
    assert forall g :: g != subGame ==> CursorOf(first.cursors, g) == START;
    var m := StreamMessage(s, subGame, hashes, payloads, 1);
    assert CursorOf(first.cursors, subGame) == Cursor(0, 0);
    var second := HandleTurn(b, None, first, Wire(m)).0;
    assert CursorOf(second.cursors, subGame) == Cursor(1, -1);
  }

  // ----- Runs -----

  /** What can happen to the turn path: a delivery at some lifecycle state, or the local runtime
      taking the first queued message that satisfies a predicate. */
  datatype Event = Deliver(life: Life, incoming: Incoming) | Take(p: Message -> bool)

  function Step(b: Binding, t: Turns, e: Event): Turns {
    match e
    case Deliver(life, incoming) => HandleTurn(b, life, t, incoming).0
    case Take(p) => t.(inbox := t.inbox.Pop(p).0)
  }

  function Run(b: Binding, t: Turns, events: seq<Event>): Turns
    decreases |events|
  {
    if events == [] then t else Run(b, Step(b, t, events[0]), events[1..])
  }

  /** The messages put into the queue over a run, in order. */
  function Enqueued(b: Binding, t: Turns, events: seq<Event>): seq<Message>
    decreases |events|
  {
    if events == [] then []
    else
      var e := events[0];
      (if e.Deliver? && HandleTurn(b, e.life, t, e.incoming).1.Ok? then [e.incoming.message] else [])
      + Enqueued(b, Step(b, t, e), events[1..])
  }

  /** The memories are consistent: every remembered message sits under its own key and passed the
      binding checks, and a non-empty correlation id belongs to exactly one remembered message. */
  ghost predicate Consistent(b: Binding, t: Turns) {
    && ValidCursors(t.cursors)
    && (forall k :: k in t.inbox.byKey ==>
         && KeyOf(t.inbox.byKey[k]) == k
         && WellFormed(Wire(t.inbox.byKey[k]))
         && MessageBinding(b, t.inbox.byKey[k], false).None?)
    && (forall id :: id in t.inbox.byCorrelation ==>
         && id != NoId && t.inbox.byCorrelation[id].correlation == id
         && KeyOf(t.inbox.byCorrelation[id]) in t.inbox.byKey
         && t.inbox.byKey[KeyOf(t.inbox.byCorrelation[id])] == t.inbox.byCorrelation[id])
    && (forall k :: k in t.inbox.byKey && t.inbox.byKey[k].correlation != NoId ==>
         && t.inbox.byKey[k].correlation in t.inbox.byCorrelation
         && t.inbox.byCorrelation[t.inbox.byKey[k].correlation] == t.inbox.byKey[k])
    && (t.inbox.capacity > 0 ==> |t.inbox.queue| <= t.inbox.capacity)
  }

  /** Everything `t` remembers, `u` remembers too. */
  ghost predicate Extends(t: Turns, u: Turns) {
    && u.inbox.capacity == t.inbox.capacity
    && (forall k :: k in t.inbox.byKey ==> k in u.inbox.byKey && u.inbox.byKey[k] == t.inbox.byKey[k])
    && (forall id :: id in t.inbox.byCorrelation ==>
          id in u.inbox.byCorrelation && u.inbox.byCorrelation[id] == t.inbox.byCorrelation[id])
    && (forall g :: Count(CursorOf(t.cursors, g)) <= Count(CursorOf(u.cursors, g)))
  }

  lemma AdvanceFacts(cs: Cursors, subGame: int, step: int, t: MessageType)
    requires ValidCursors(cs)
    ensures ValidCursors(Advance(cs, subGame, step, t))
    ensures forall g :: Count(CursorOf(cs, g)) <= Count(CursorOf(Advance(cs, subGame, step, t), g))
  {
    forall g
      ensures Sequence.Valid(CursorOf(Advance(cs, subGame, step, t), g))
      ensures Count(CursorOf(cs, g)) <= Count(CursorOf(Advance(cs, subGame, step, t), g))
    {
      assert Sequence.Valid(CursorOf(cs, g));
    }
  }

  /** Accepting a message that is neither a replay nor a conflict keeps the memories consistent. */
  lemma SequencedFacts(b: Binding, t: Turns, m: Message)
    requires Consistent(b, t) && WellFormed(Wire(m)) && MessageBinding(b, m, false).None?
    requires KeyOf(m) !in t.inbox.byKey && m.correlation !in t.inbox.byCorrelation
    ensures Consistent(b, Sequenced(t, m).0) && Extends(t, Sequenced(t, m).0)
  {
    hide Advance, CheckMessage, CursorOf, Sequence.Valid, WellFormed, Count, MessageBinding;
    hide KeyOf;
    AdvanceFacts(t.cursors, m.subGame, m.step, m.mtype);
  }

  /** What passes the duplicate filters is new under both its key and its correlation id. */
  lemma PassingIsNew(b: Binding, t: Turns, m: Message)
    requires Consistent(b, t)
    requires !t.inbox.IsReplay(KeyOf(m), m) && !t.inbox.IsConflict(KeyOf(m), m)
    requires !t.inbox.CorrelationConflict(m.correlation, m)
    ensures KeyOf(m) !in t.inbox.byKey && m.correlation !in t.inbox.byCorrelation
  {
  }

  lemma StepFacts(b: Binding, t: Turns, e: Event)
    requires Consistent(b, t)
    ensures Consistent(b, Step(b, t, e)) && Extends(t, Step(b, t, e))
  {
    hide Sequenced, CursorOf, Sequence.Valid, Count;
    if e.Take? {
      PopRemovesFirstMatch(t.inbox, e.p);
    } else if e.incoming.Wire? {
      var m := e.incoming.message;
      if && !t.inbox.IsReplay(KeyOf(m), m) && !t.inbox.IsConflict(KeyOf(m), m)
         && !t.inbox.CorrelationConflict(m.correlation, m)
         && WellFormed(Wire(m)) && MessageBinding(b, m, false).None? {
        PassingIsNew(b, t, m);
        SequencedFacts(b, t, m);
      }
    }
  }

  lemma {:induction false} RunFacts(b: Binding, t: Turns, events: seq<Event>)
    requires Consistent(b, t)
    ensures Consistent(b, Run(b, t, events)) && Extends(t, Run(b, t, events))
    decreases |events|
  {
    hide Consistent, Step, Count;
    if events != [] {
      StepFacts(b, t, events[0]);
      RunFacts(b, Step(b, t, events[0]), events[1..]);
    }
  }

  function FreshTurns(capacity: int): Turns {
    Turns(State([], capacity, map[], map[]), map[])
  }

  lemma FreshIsConsistent(b: Binding, capacity: int)
    ensures Consistent(b, FreshTurns(capacity))
  {
  }

  /** `m` is remembered under its key and, if it has one, under its correlation id. */
  ghost predicate Remembered(t: Turns, m: Message) {
    && KeyOf(m) in t.inbox.byKey && t.inbox.byKey[KeyOf(m)] == m
    && (m.correlation != NoId ==> m.correlation in t.inbox.byCorrelation && t.inbox.byCorrelation[m.correlation] == m)
  }

  lemma AcceptedIsRemembered(b: Binding, t: Turns, life: Life, m: Message, later: seq<Event>)
    requires Consistent(b, t) && HandleTurn(b, life, t, Wire(m)).1.Ok?
    ensures var u := Run(b, HandleTurn(b, life, t, Wire(m)).0, later);
            Remembered(u, m) && Consistent(b, u) && MessageBinding(b, m, false).None? && WellFormed(Wire(m))
  {
    hide Run, Consistent, MessageBinding, Count;
    var first := HandleTurn(b, life, t, Wire(m)).0;
    StepFacts(b, t, Deliver(life, Wire(m)));
    RunFacts(b, first, later);
    assert MessageBinding(b, m, false).None? by {
      AcceptedIsBound(b, t, life, m);
    }
  }

  lemma AcceptedIsBound(b: Binding, t: Turns, life: Life, m: Message)
    requires HandleTurn(b, life, t, Wire(m)).1.Ok?
    ensures MessageBinding(b, m, false).None?
  {
  }

  /** Redelivering any message ever accepted, at any later time while the peer is live, is
      acknowledged as a repeat and changes nothing. */
  lemma RedeliveryIsIdempotent(b: Binding, t: Turns, life: Life, m: Message, later: seq<Event>, life': Life)
    requires Consistent(b, t) && HandleTurn(b, life, t, Wire(m)).1.Ok? && !Dead(life')
    ensures var u := Run(b, HandleTurn(b, life, t, Wire(m)).0, later);
            HandleTurn(b, life', u, Wire(m)) == (u, Idempotent)
  {
    hide Run, Consistent, Sequenced;
    AcceptedIsRemembered(b, t, life, m, later);
  }

  lemma ConflictIsRefused(b: Binding, u: Turns, life: Life, m: Message, other: Message)
    requires Consistent(b, u) && Remembered(u, m)
    requires other != m && (KeyOf(other) == KeyOf(m) || (other.correlation == m.correlation && m.correlation != NoId))
    ensures HandleTurn(b, life, u, Wire(other)).1.Rejected?
  {
    hide Sequenced, MessageBinding, CursorOf;
  }

  /** After a message was accepted, a different one under its key, or under its correlation id if
      that is not empty, is refused for ever. */
  lemma ConflictsAreRefused(b: Binding, t: Turns, life: Life, m: Message, later: seq<Event>, life': Life,
                            other: Message)
    requires Consistent(b, t) && HandleTurn(b, life, t, Wire(m)).1.Ok?
    requires other != m && (KeyOf(other) == KeyOf(m) || (other.correlation == m.correlation && m.correlation != NoId))
    ensures HandleTurn(b, life', Run(b, HandleTurn(b, life, t, Wire(m)).0, later), Wire(other)).1.Rejected?
  {
    hide Run, Consistent, HandleTurn, Remembered;
    AcceptedIsRemembered(b, t, life, m, later);
    ConflictIsRefused(b, Run(b, HandleTurn(b, life, t, Wire(m)).0, later), life', m, other);
  }

  /** Neither the key nor the correlation id of `m` is remembered. */
  ghost predicate NewTo(t: Turns, m: Message) {
    KeyOf(m) !in t.inbox.byKey && m.correlation !in t.inbox.byCorrelation
  }

  ghost predicate KnownTo(t: Turns, m: Message) {
    KeyOf(m) in t.inbox.byKey && (m.correlation != NoId ==> m.correlation in t.inbox.byCorrelation)
  }

  /** Different keys, and different correlation ids unless empty. */
  ghost predicate Apart(m: Message, n: Message) {
    KeyOf(m) != KeyOf(n) && (m.correlation != NoId ==> m.correlation != n.correlation)
  }

  lemma EnqueueFacts(b: Binding, t: Turns, e: Event)
    requires Consistent(b, t) && e.Deliver? && HandleTurn(b, e.life, t, e.incoming).1.Ok?
    ensures e.incoming.Wire? && NewTo(t, e.incoming.message) && KnownTo(Step(b, t, e), e.incoming.message)
  {
    PassingIsNew(b, t, e.incoming.message);
  }

  lemma NewLaterIsNewEarlier(t: Turns, u: Turns, m: Message)
    requires Extends(t, u) && NewTo(u, m)
    ensures NewTo(t, m)
  {
  }

  /** Over any run each logical key, and each non-empty correlation id, is enqueued at most once,
      never one that was already known, and the queue stays within its capacity. */
  lemma {:induction false} EachKeyIsEnqueuedOnce(b: Binding, t: Turns, events: seq<Event>)
    requires Consistent(b, t)
    ensures forall i :: 0 <= i < |Enqueued(b, t, events)| ==> NewTo(t, Enqueued(b, t, events)[i])
    ensures forall i, j :: 0 <= i < j < |Enqueued(b, t, events)| ==>
              Apart(Enqueued(b, t, events)[i], Enqueued(b, t, events)[j])
    ensures t.inbox.capacity > 0 ==> |Run(b, t, events).inbox.queue| <= t.inbox.capacity
    decreases |events|
  {
    hide Step, HandleTurn, Extends, NewTo, KnownTo, Apart;
    QueueIsBounded(b, t, events);
    if events != [] {
      var e, after := events[0], Step(b, t, events[0]);
      var rest := Enqueued(b, after, events[1..]);
      StepFacts(b, t, e);
      EachKeyIsEnqueuedOnce(b, after, events[1..]);
      forall i | 0 <= i < |rest| ensures NewTo(t, rest[i]) {
        NewLaterIsNewEarlier(t, after, rest[i]);
      }
      if e.Deliver? && HandleTurn(b, e.life, t, e.incoming).1.Ok? {
        EnqueueFacts(b, t, e);
        forall i | 0 <= i < |rest| ensures Apart(e.incoming.message, rest[i]) {
          KnownAndNewAreApart(after, e.incoming.message, rest[i]);
        }
      }
    }
  }

  lemma KnownAndNewAreApart(t: Turns, m: Message, n: Message)
    requires KnownTo(t, m) && NewTo(t, n)
    ensures Apart(m, n)
  {
  }

  lemma QueueIsBounded(b: Binding, t: Turns, events: seq<Event>)
    requires Consistent(b, t)
    ensures t.inbox.capacity > 0 ==> |Run(b, t, events).inbox.queue| <= t.inbox.capacity
  {
    hide Run;
    RunFacts(b, t, events);
  }

  /** A core message refused with BACKPRESSURE is lost for good: whatever happens afterwards, no
      delivery under its key ever succeeds. */
  lemma BackpressureLosesTheMessage(b: Binding, t: Turns, life: Life, m: Message, later: seq<Event>, life': Life,
                                    retry: Message)
    requires Consistent(b, t) && IsCore(m.mtype)
    requires HandleTurn(b, life, t, Wire(m)).1 == Rejected(Backpressure)
    requires KeyOf(retry) == KeyOf(m)
    ensures !HandleTurn(b, life', Run(b, HandleTurn(b, life, t, Wire(m)).0, later), Wire(retry)).1.Ok?
  {
    var first := HandleTurn(b, life, t, Wire(m)).0;
    StepFacts(b, t, Deliver(life, Wire(m)));
    RunFacts(b, first, later);
    OnlyTheNextIsAccepted(CursorOf(t.cursors, m.subGame), m.step, m.mtype);
    var u := Run(b, first, later);
    assert Count(CursorOf(first.cursors, m.subGame)) <= Count(CursorOf(u.cursors, m.subGame));
    OnlyTheNextIsAccepted(CursorOf(u.cursors, m.subGame), m.step, m.mtype);
  }

  // ----- Audit messages -----

  datatype AuditType = Audit | AuditAck | FinalResult | ResultAgreement

  datatype AuditMessage = AuditMessage(atype: AuditType, sender: Role, gameUid: string, subGame: int,
                                       config: Option<string>, correlation: CorrelationId, body: Json)

  datatype AuditKey = AuditKey(subGame: int, atype: AuditType)

  datatype AuditIncoming = AuditGarbage | AuditWire(message: AuditMessage)

  type Audits = State<AuditKey, AuditMessage>

  /** The submit_audit path; a result agreement alone is still welcome once the series is complete. */
  function HandleAudit(b: Binding, life: Life, inbox: Audits, incoming: AuditIncoming): (Audits, Ack) {
    if incoming.AuditGarbage? then (inbox, Rejected(Malformed))
    else
      var m := incoming.message;
      var dead := if m.atype.ResultAgreement? then DeadForAudit(life) else Dead(life);
      var reason := BindingReason(b, m.sender, m.gameUid, m.config, dead);
      var key := AuditKey(m.subGame, m.atype);
      if reason.Some? then (inbox, Rejected(reason.value))
      else if inbox.IsReplay(key, m) then (inbox, Idempotent)
      else if inbox.IsConflict(key, m) then (inbox, Rejected(ConflictingDuplicate))
      else
        var enqueued := inbox.Enqueue(key, m, m.correlation);
        if enqueued.None? then (inbox, Rejected(Backpressure)) else (enqueued.value, Ok)
  }

  /** The audit path: no order and no correlation check, and a completed series turns away everything
      but a result agreement. */
  lemma AuditAcceptanceIsExact(b: Binding, life: Life, inbox: Audits, incoming: AuditIncoming)
    ensures HandleAudit(b, life, inbox, incoming).1.Ok? <==>
              && incoming.AuditWire?
              && var m := incoming.message;
                 && m.sender == b.sender && m.gameUid == b.gameUid && (m.config.None? || m.config.value == b.config)
                 && !DeadForAudit(life)
                 && (life.Some? && life.value.SeriesComplete? ==> m.atype.ResultAgreement?)
                 && AuditKey(m.subGame, m.atype) !in inbox.byKey
                 && (inbox.capacity <= 0 || |inbox.queue| < inbox.capacity)
  {
  }

  /** Every answer of the audit path, in the same way. */
  lemma EveryAuditAnswerIsExact(b: Binding, life: Life, inbox: Audits, incoming: AuditIncoming)
    ensures var ack := HandleAudit(b, life, inbox, incoming).1;
            && (ack == Rejected(Malformed) <==> incoming.AuditGarbage?)
            && (incoming.AuditWire? ==>
                  var m := incoming.message;
                  var bound, key := Bound(b, m.sender, m.gameUid, m.config), AuditKey(m.subGame, m.atype);
                  var over := && life.Some?
                              && (|| life.value in {L.Error, L.Quit}
                                  || (life.value == L.SeriesComplete && !m.atype.ResultAgreement?));
                  && BindingAnswers(b, m.sender, m.gameUid, m.config, ack)
                  && (ack == Rejected(NotLive) <==> bound && over)
                  && (ack == Idempotent <==> bound && !over && key in inbox.byKey && inbox.byKey[key] == m)
                  && (ack == Rejected(ConflictingDuplicate) <==>
                        bound && !over && key in inbox.byKey && inbox.byKey[key] != m)
                  && (ack == Rejected(Backpressure) <==>
                        bound && !over && key !in inbox.byKey && 0 < inbox.capacity <= |inbox.queue|)
                  && ack != Rejected(OutOfSequence))
  {
  }

  class TurnRouter {
    const binding: Binding
    const turnInbox: BoundedInbox<Key, Message>
    const auditInbox: BoundedInbox<AuditKey, AuditMessage>
    const sequence: SequenceTracker
    const machine: L.PeerStateMachine?

    ghost function View(): Turns
      reads turnInbox, sequence
    {
      Turns(turnInbox.View(), sequence.cursors)
    }

    function CurrentLife(): Life
      reads machine
    {
      if machine == null then None else Some(machine.state)
    }

    constructor (binding: Binding, turnInbox: BoundedInbox<Key, Message>,
                 auditInbox: BoundedInbox<AuditKey, AuditMessage>, sequence: SequenceTracker,
                 machine: L.PeerStateMachine?)
      ensures this.binding == binding && this.turnInbox == turnInbox && this.auditInbox == auditInbox
      ensures this.sequence == sequence && this.machine == machine
    {
      this.binding, this.turnInbox, this.auditInbox := binding, turnInbox, auditInbox;
      this.sequence, this.machine := sequence, machine;
    }

    method HandleTurnMessage(incoming: Incoming) returns (ack: Ack)
      modifies turnInbox, sequence
      ensures (View(), ack) == HandleTurn(binding, CurrentLife(), old(View()), incoming)
    {
      if !WellFormed(incoming) {
        return Rejected(Malformed);
      }
      var m := incoming.message;
      var reason := MessageBinding(binding, m, Dead(CurrentLife()));
      if reason.Some? {
        return Rejected(reason.value);
      }
      var key := KeyOf(m);
      if turnInbox.View().IsReplay(key, m) {
        return Idempotent;
      }
      if turnInbox.View().IsConflict(key, m) || turnInbox.View().CorrelationConflict(m.correlation, m) {
        return Rejected(ConflictingDuplicate);
      }
      var inOrder := sequence.CheckAndAdvance(m.subGame, m.step, m.mtype);
      if !inOrder {
        return Rejected(OutOfSequence);
      }
      var room := turnInbox.Enqueue(key, m, m.correlation);
      ack := if room then Ok else Rejected(Backpressure);
    }

    method HandleAuditMessage(incoming: AuditIncoming) returns (ack: Ack)
      modifies auditInbox
      ensures (auditInbox.View(), ack) == HandleAudit(binding, CurrentLife(), old(auditInbox.View()), incoming)
    {
      if incoming.AuditGarbage? {
        return Rejected(Malformed);
      }
      var m := incoming.message;
      var dead := if m.atype.ResultAgreement? then DeadForAudit(CurrentLife()) else Dead(CurrentLife());
      var reason := BindingReason(binding, m.sender, m.gameUid, m.config, dead);
      if reason.Some? {
        return Rejected(reason.value);
      }
      var key := AuditKey(m.subGame, m.atype);
      if auditInbox.View().IsReplay(key, m) {
        return Idempotent;
      }
      if auditInbox.View().IsConflict(key, m) {
        return Rejected(ConflictingDuplicate);
      }
      var room := auditInbox.Enqueue(key, m, m.correlation);
      ack := if room then Ok else Rejected(Backpressure);
    }
  }
}
