/** The incoming-request gatekeeper (services/incoming_gatekeeper.py). Each step runs atomically
    between two awaits; any interleaving of callers is a sequence of steps. */
module Gatekeeper {
  import opened SlidingWindow

  datatype Limits = Limits(perMinute: int, concurrent: int, queueDepth: int)

  /** `history` records the time of every admission; `waiting` and `running` are the admitted
      callers before and inside the body; `permits` is the semaphore's free count. */
  datatype Gate = Gate(recent: seq<real>, depth: int, permits: int,
                       history: seq<real>, waiting: set<int>, running: set<int>, clock: real)

  /** Arrive: enter `slot` with the clock read at `now` for the rate check and at `later` for the
      admission. Acquire: the semaphore is free and the body starts. Leave: the body finishes,
      fails or is cancelled, or the wait for the semaphore is cancelled. */
  datatype Event =
    | Arrive(caller: int, now: real, later: real)
    | Acquire(caller: int)
    | Leave(caller: int)

  datatype Verdict = Admitted | QueueFull | RateExceeded

  function Fresh(limits: Limits, start: real): Gate {
    Gate([], 0, limits.concurrent, [], {}, {}, start)
  }

  function Judge(limits: Limits, g: Gate, now: real): Verdict {
    if g.depth >= limits.queueDepth then QueueFull
    else if |Prune(g.recent, now)| >= limits.perMinute then RateExceeded
    else Admitted
  }

  function Step(limits: Limits, g: Gate, e: Event): Gate {
    match e
    case Arrive(caller, now, later) =>
      (match Judge(limits, g, now)
       case QueueFull => g
       case RateExceeded => g.(recent := Prune(g.recent, now), clock := now)
       case Admitted => g.(recent := Prune(g.recent, now) + [later], depth := g.depth + 1,
                           history := g.history + [later], waiting := g.waiting + {caller}, clock := later))
    case Acquire(caller) =>
      if caller in g.waiting && g.permits > 0 then
        g.(permits := g.permits - 1, waiting := g.waiting - {caller}, running := g.running + {caller})
      else g
    case Leave(caller) =>
      if caller in g.running then g.(permits := g.permits + 1, running := g.running - {caller}, depth := g.depth - 1)
      else if caller in g.waiting then g.(waiting := g.waiting - {caller}, depth := g.depth - 1)
      else g
  }

  /** What the environment guarantees: the clock never runs backwards, and a caller enters `slot`
      under a name not in use. */
  predicate Enabled(g: Gate, e: Event) {
    e.Arrive? ==> g.clock <= e.now <= e.later && e.caller !in g.waiting + g.running
  }

  predicate Possible(limits: Limits, g: Gate, events: seq<Event>)
    decreases |events|
  {
    events == [] || (Enabled(g, events[0]) && Possible(limits, Step(limits, g, events[0]), events[1..]))
  }

  function Run(limits: Limits, g: Gate, events: seq<Event>): Gate
    decreases |events|
  {
    if events == [] then g else Run(limits, Step(limits, g, events[0]), events[1..])
  }

  ghost predicate Sound(limits: Limits, g: Gate) {
    && Remembers(g.recent, g.history, g.clock)
    && Spaced(g.history, limits.perMinute)
    && g.waiting !! g.running
    && g.depth == |g.waiting| + |g.running|
    && (g.depth == 0 || g.depth <= limits.queueDepth)
    && g.permits == limits.concurrent - |g.running| && g.permits >= 0
  }

  lemma StepKeepsSound(limits: Limits, g: Gate, e: Event)
    requires Sound(limits, g) && Enabled(g, e)
    ensures Sound(limits, Step(limits, g, e))
  {
    match e {
      case Arrive(caller, now, later) =>
        PruneRemembers(g.recent, g.history, g.clock, now);
        if Judge(limits, g, now).Admitted? {
          GrantKeepsSpacing(Prune(g.recent, now), g.history, now, later, limits.perMinute);
        }
      case Acquire(caller) =>
      case Leave(caller) =>
    }
  }

  lemma {:induction false} RunKeepsSound(limits: Limits, g: Gate, events: seq<Event>)
    requires Sound(limits, g) && Possible(limits, g, events)
    ensures Sound(limits, Run(limits, g, events))
    decreases |events|
  {
    if events != [] {
      StepKeepsSound(limits, g, events[0]);
      RunKeepsSound(limits, Step(limits, g, events[0]), events[1..]);
    }
  }

  /** Over every interleaving from a fresh gatekeeper: any closed 60-second window holds at most
      perMinute admissions, at most `concurrent` bodies run at once, and the depth counter equals
      the admitted-but-unfinished callers and stays within its bound. */
  lemma GatekeeperIsSafe(limits: Limits, start: real, events: seq<Event>, t: real)
    requires limits.perMinute >= 0 && limits.concurrent >= 0
    requires Possible(limits, Fresh(limits, start), events)
    ensures var g := Run(limits, Fresh(limits, start), events);
            && |InWindow(g.history, t)| <= limits.perMinute
            && |g.running| <= limits.concurrent
            && g.depth == |g.waiting + g.running|
            && (g.depth <= limits.queueDepth || g.depth == 0)
            && g.permits == limits.concurrent - |g.running|
  {
    var g := Run(limits, Fresh(limits, start), events);
    RunKeepsSound(limits, Fresh(limits, start), events);
    WindowBound(g.history, limits.perMinute, t);
    assert |g.waiting + g.running| == |g.waiting| + |g.running|;
  }

  lemma RemoveOne(waiting: set<int>, running: set<int>, caller: int)
    requires waiting !! running && caller in waiting + running
    ensures caller in running ==>
              && |running - {caller}| == |running| - 1
              && waiting + (running - {caller}) == waiting + running - {caller}
    ensures caller !in running ==>
              && running - {caller} == running
              && (waiting - {caller}) + running == waiting + running - {caller}
  {
  }

  /** Every exit path returns the slot: after a caller leaves, from the body or from the wait, it
      is gone, and depth and permits are what they would be had it never entered. */
  lemma LeavingReturnsTheSlot(limits: Limits, g: Gate, caller: int)
    requires Sound(limits, g) && caller in g.waiting + g.running
    ensures var after := Step(limits, g, Leave(caller));
            && after.waiting + after.running == g.waiting + g.running - {caller}
            && after.depth == g.depth - 1
            && after.permits == limits.concurrent - |g.running - {caller}|
            && after.recent == g.recent
  {
    hide Remembers, Spaced, Prune, Judge;
    RemoveOne(g.waiting, g.running, caller);
  }

  /** The verdict is exact: with perMinute admissions or more in the 60 seconds that end at the check
      a request is over the rate; it is refused for the queue exactly when the depth is at its bound,
      for the rate exactly when there is room but it is over the rate, and admitted exactly when there
      is room and it is not. Only an admission is entered, at the clock's reading. */
  lemma VerdictIsExact(limits: Limits, g: Gate, caller: int, now: real, later: real)
    requires Sound(limits, g) && g.clock <= now
    ensures var room, over := g.depth < limits.queueDepth, |InWindow(g.history, now - 60.0)| >= limits.perMinute;
            var after := Step(limits, g, Arrive(caller, now, later));
            && (Judge(limits, g, now).QueueFull? <==> !room)
            && (Judge(limits, g, now).RateExceeded? <==> room && over)
            && (Judge(limits, g, now).Admitted? <==> room && !over)
            && after.history == g.history + (if room && !over then [later] else [])
            && after.waiting == g.waiting + (if room && !over then {caller} else {})
            && after.depth == g.depth + (if room && !over then 1 else 0)
  {
    var kept := Prune(g.recent, now);
    PruneRemembers(g.recent, g.history, g.clock, now);
    var s := InWindow(g.history, now - SPAN);
    var lo := |g.history| - |kept|;
    RangeFills(s, lo, |g.history|);
    RangeSize(s, lo, |kept|);
  }

  /** A waiting caller gets into the body exactly while fewer than `concurrent` are in it. */
  lemma PermitIsExact(limits: Limits, g: Gate, caller: int)
    requires Sound(limits, g) && caller in g.waiting
    ensures caller in Step(limits, g, Acquire(caller)).running <==> |g.running| < limits.concurrent
    ensures caller in Step(limits, g, Acquire(caller)).waiting <==> |g.running| >= limits.concurrent
  {
    hide Remembers, Spaced;
  }

  /** The object itself: `recent`, `depth` and the semaphore are its state. */
  class IncomingGatekeeper {
    const limits: Limits
    var recent: seq<real>
    var depth: int
    var permits: int
    ghost var history: seq<real>
    ghost var waiting: set<int>
    ghost var running: set<int>
    ghost var clock: real

    ghost function View(): Gate
      reads this
    {
      Gate(recent, depth, permits, history, waiting, running, clock)
    }

    constructor (limits: Limits, ghost start: real)
      ensures this.limits == limits && View() == Fresh(limits, start)
    {
      this.limits := limits;
      recent, depth, permits := [], 0, limits.concurrent;
      history, waiting, running, clock := [], {}, {}, start;
    }

    method WithinRate(now: real) returns (ok: bool)
      modifies this`recent
      ensures recent == Prune(old(recent), now)
      ensures ok == (|recent| < limits.perMinute)
    {
      recent := PruneLoop(recent, now);
      ok := |recent| < limits.perMinute;
    }

    /** The part of `slot` before the semaphore. */
    method Enter(ghost caller: int, now: real, later: real) returns (verdict: Verdict)
      modifies this
      ensures verdict == Judge(limits, old(View()), now)
      ensures View() == Step(limits, old(View()), Arrive(caller, now, later))
    {
      if depth >= limits.queueDepth {
        return QueueFull;
      }
      var ok := WithinRate(now);
      clock := now;
      if !ok {
        return RateExceeded;
      }
      depth := depth + 1;
      recent := recent + [later];
      history, waiting, clock := history + [later], waiting + {caller}, later;
      verdict := Admitted;
    }

    method TakePermit(ghost caller: int) returns (taken: bool)
      requires caller in waiting
      modifies this
      ensures taken == (old(permits) > 0)
      ensures View() == Step(limits, old(View()), Acquire(caller))
    {
      taken := permits > 0;
      if taken {
        permits := permits - 1;
        waiting, running := waiting - {caller}, running + {caller};
      }
    }

    /** The exit of the `async with` and the `finally` block. */
    method Exit(ghost caller: int, holdsPermit: bool)
      requires caller in waiting + running && holdsPermit == (caller in running)
      modifies this
      ensures View() == Step(limits, old(View()), Leave(caller))
    {
      if holdsPermit {
        permits := permits + 1;
        running := running - {caller};
      } else {
        waiting := waiting - {caller};
      }
      depth := depth - 1;
    }
  }
}
