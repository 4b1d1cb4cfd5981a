/** The outbound pacer (infrastructure/outbound_pacer.py): one attempt under the window lock is one
    atomic step, whoever makes it. */
module Pacer {
  import opened SlidingWindow

  const SHORTEST_SLEEP := 0.01

  datatype Attempt = Granted | Wait(seconds: real)

  datatype Ledger = Ledger(recent: seq<real>, history: seq<real>, clock: real)

  function Outcome(perMinute: int, l: Ledger, now: real): (a: Attempt)
    requires perMinute >= 1
  {
    var kept := Prune(l.recent, now);
    if |kept| < perMinute then Granted
    else
      var left := SPAN - (now - kept[0]);
      Wait(if left < SHORTEST_SLEEP then SHORTEST_SLEEP else left)
  }

  function Step(perMinute: int, l: Ledger, now: real): Ledger {
    var kept := Prune(l.recent, now);
    if |kept| < perMinute then Ledger(kept + [now], l.history + [now], now) else Ledger(kept, l.history, now)
  }

  function Run(perMinute: int, l: Ledger, times: seq<real>): Ledger
    decreases |times|
  {
    if times == [] then l else Run(perMinute, Step(perMinute, l, times[0]), times[1..])
  }

  ghost predicate Sound(perMinute: int, l: Ledger) {
    && Remembers(l.recent, l.history, l.clock) && Spaced(l.history, perMinute)
    && |l.recent| <= perMinute
  }

  predicate Monotone(from: real, times: seq<real>)
    decreases |times|
  {
    times == [] || (from <= times[0] && Monotone(times[0], times[1..]))
  }

  lemma {:induction false} PruneShortens(recent: seq<real>, now: real)
    ensures |Prune(recent, now)| <= |recent|
    decreases |recent|
  {
    if recent != [] && now - recent[0] > SPAN {
      PruneShortens(recent[1..], now);
    }
  }

  lemma StepKeepsSound(perMinute: int, l: Ledger, now: real)
    requires perMinute >= 0 && Sound(perMinute, l) && l.clock <= now
    ensures Sound(perMinute, Step(perMinute, l, now))
  {
    PruneShortens(l.recent, now);
    PruneRemembers(l.recent, l.history, l.clock, now);
    if |Prune(l.recent, now)| < perMinute {
      GrantKeepsSpacing(Prune(l.recent, now), l.history, now, now, perMinute);
    }
  }

  lemma {:induction false} RunKeepsSound(perMinute: int, l: Ledger, times: seq<real>)
    requires perMinute >= 0 && Sound(perMinute, l) && Monotone(l.clock, times)
    ensures Sound(perMinute, Run(perMinute, l, times))
    decreases |times|
  {
    if times != [] {
      StepKeepsSound(perMinute, l, times[0]);
      RunKeepsSound(perMinute, Step(perMinute, l, times[0]), times[1..]);
    }
  }

  /** For any number of callers and any interleaving of their attempts, any closed 60-second window
      holds at most perMinute grants. */
  lemma PacerIsSafe(perMinute: nat, start: real, times: seq<real>, t: real)
    requires Monotone(start, times)
    ensures |InWindow(Run(perMinute, Ledger([], [], start), times).history, t)| <= perMinute
  {
    RunKeepsSound(perMinute, Ledger([], [], start), times);
    WindowBound(Run(perMinute, Ledger([], [], start), times).history, perMinute, t);
  }

  /** A refused attempt tells how long the oldest remembered grant still counts, and changes
      nothing if that grant is exactly 60 seconds old. */
  lemma RefusalFacts(perMinute: int, l: Ledger, now: real)
    requires perMinute >= 1 && Sound(perMinute, l) && l.clock <= now
    requires Outcome(perMinute, l, now).Wait?
    ensures var after, wait := Step(perMinute, l, now), Outcome(perMinute, l, now).seconds;
            && after.history == l.history && after.clock == now && after.recent == l.recent != []
            && 0.0 <= now - l.recent[0] <= SPAN
            && wait == if SPAN - (now - l.recent[0]) < SHORTEST_SLEEP then SHORTEST_SLEEP
                       else SPAN - (now - l.recent[0])
  {
    if l.recent != [] && now - l.recent[0] > SPAN {
      PruneShortens(l.recent[1..], now);
    }
    assert l.recent[0] == l.history[|l.history| - |l.recent|];
  }

  /** An attempt is granted exactly when fewer than perMinute grants lie in the 60 seconds that end at it,
      and only a granted one is entered. */
  lemma GrantIsExact(perMinute: int, l: Ledger, now: real)
    requires perMinute >= 1 && Sound(perMinute, l) && l.clock <= now
    ensures Outcome(perMinute, l, now).Granted? <==> |InWindow(l.history, now - 60.0)| < perMinute
    ensures Step(perMinute, l, now).history
         == l.history + if |InWindow(l.history, now - 60.0)| < perMinute then [now] else []
  {
    var kept := Prune(l.recent, now);
    PruneRemembers(l.recent, l.history, l.clock, now);
    var s := InWindow(l.history, now - 60.0);
    var lo := |l.history| - |kept|;
    RangeFills(s, lo, |l.history|);
    RangeSize(s, lo, |kept|);
  }

  class OutboundPacer {
    const perMinute: int
    var recent: seq<real>
    ghost var history: seq<real>
    ghost var clock: real

    ghost function View(): Ledger
      reads this
    {
      Ledger(recent, history, clock)
    }

    constructor (perMinute: int, ghost start: real)
      ensures this.perMinute == perMinute && View() == Ledger([], [], start)
    {
      this.perMinute := perMinute;
      recent, history, clock := [], [], start;
    }

    /** The body of the window lock. */
    method Try(now: real) returns (a: Attempt)
      requires perMinute >= 1
      modifies this
      ensures a == Outcome(perMinute, old(View()), now)
      ensures View() == Step(perMinute, old(View()), now)
    {
      recent := PruneLoop(recent, now);
      clock := now;
      if |recent| < perMinute {
        recent, history := recent + [now], history + [now];
        return Granted;
      }
      var left := SPAN - (now - recent[0]);
      a := Wait(if left < SHORTEST_SLEEP then SHORTEST_SLEEP else left);
    }

    /** A lone caller with exact sleeps: the loop ends after at most two sleeps that add up to at
        most 60.01 seconds, and the slot it gets is recorded at the time of the last attempt. */
    method AwaitRateSlot(start: real) returns (granted: real, sleeps: seq<real>)
      requires perMinute >= 1 && Sound(perMinute, View()) && clock <= start
      modifies this
      ensures Sound(perMinute, View())
      ensures history == old(history) + [granted] && clock == granted
      ensures |sleeps| == 0 ==> granted == start
      ensures |sleeps| == 1 ==> granted == start + sleeps[0]
      ensures |sleeps| == 2 ==> granted == start + sleeps[0] + sleeps[1]
      ensures |sleeps| <= 2 && start <= granted <= start + 60.01
    {
      hide Outcome, Step, Prune, Remembers, Spaced;
      var now := start;
      sleeps := [];
      while true
        invariant Sound(perMinute, View()) && clock <= now && history == old(history)
        invariant |sleeps| <= 2
        invariant |sleeps| == 0 ==> now == start
        invariant |sleeps| >= 1 ==> recent != [] && SHORTEST_SLEEP <= sleeps[0] <= SPAN
        invariant |sleeps| == 1 ==> now == start + sleeps[0] && now - recent[0] >= SPAN
        invariant |sleeps| == 2 ==> sleeps[1] == SHORTEST_SLEEP && now == start + sleeps[0] + sleeps[1]
        invariant |sleeps| == 2 ==> now - recent[0] > SPAN
        decreases 2 - |sleeps|
      {
        ghost var before := View();
        StepKeepsSound(perMinute, before, now);
        if Outcome(perMinute, before, now).Wait? {
          RefusalFacts(perMinute, before, now);
        } else {
          GrantFacts(perMinute, before, now);
        }
        var a := Try(now);
        if a.Granted? {
          return now, sleeps;
        }
        now := now + a.seconds;
        sleeps := sleeps + [a.seconds];
      }
    }
  }

  lemma GrantFacts(perMinute: int, l: Ledger, now: real)
    requires perMinute >= 1 && Outcome(perMinute, l, now).Granted?
    ensures Step(perMinute, l, now).history == l.history + [now] && Step(perMinute, l, now).clock == now
  {
  }
}
