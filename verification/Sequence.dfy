/** The per-sub-game ordering guard of the receiver (infrastructure/sequence.py). */
module Sequence {
  import opened Messages

  /** `phase` is the highest core phase reached in the current step: -1 none, 0 commitment. */
  datatype Cursor = Cursor(step: int, phase: int)

  type Cursors = map<int, Cursor>

  const START := Cursor(0, -1)

  function CursorOf(cs: Cursors, subGame: int): Cursor {
    if subGame in cs then cs[subGame] else START
  }

  datatype Check = Accepted(next: Cursor) | Stale | Skipped | OutOfOrder | WrongStep

  function CheckCore(c: Cursor, step: int, t: MessageType): Check
    requires IsCore(t)
  {
    if step < c.step then Stale
    else if step > c.step then Skipped
    else if t.Commitment? then (if c.phase != -1 then OutOfOrder else Accepted(Cursor(c.step, 0)))
    else if c.phase < 0 then OutOfOrder
    else Accepted(Cursor(c.step + 1, -1))
  }

  function CheckMessage(c: Cursor, step: int, t: MessageType): Check {
    if IsCore(t) then CheckCore(c, step, t)
    else if step != c.step then WrongStep
    else Accepted(c)
  }

  /** The cursors after a check; a first look at a sub-game creates its cursor either way. */
  function Advance(cs: Cursors, subGame: int, step: int, t: MessageType): Cursors {
    var check := CheckMessage(CursorOf(cs, subGame), step, t);
    cs[subGame := if check.Accepted? then check.next else CursorOf(cs, subGame)]
  }

  predicate Valid(c: Cursor) {
    c.step >= 0 && (c.phase == -1 || c.phase == 0)
  }

  /** How many core messages a cursor has let through. */
  function Count(c: Cursor): int {
    2 * c.step + c.phase + 1
  }

  datatype Arrival = Arrival(subGame: int, step: int, mtype: MessageType)

  function RunTracker(cs: Cursors, arrivals: seq<Arrival>): Cursors {
    if arrivals == [] then cs
    else
      var last := arrivals[|arrivals| - 1];
      Advance(RunTracker(cs, arrivals[..|arrivals| - 1]), last.subGame, last.step, last.mtype)
  }

  /** The core messages of one sub-game that the tracker accepted, in order. */
  function AcceptedCore(arrivals: seq<Arrival>, subGame: int): seq<Arrival> {
    if arrivals == [] then []
    else
      var before, last := arrivals[..|arrivals| - 1], arrivals[|arrivals| - 1];
      var kept := AcceptedCore(before, subGame);
      if last.subGame == subGame && IsCore(last.mtype)
         && CheckMessage(CursorOf(RunTracker(map[], before), subGame), last.step, last.mtype).Accepted?
      then kept + [last] else kept
  }

  /** Over any run of arrivals, in any interleaving of sub-games, the accepted core messages of a
      sub-game are exactly commitment 0, reveal 0, commitment 1, reveal 1, ...: the k-th one is the
      message whose builder stamps sequence number k. */
  lemma {:induction false} AcceptedOrderIsSenderOrder(arrivals: seq<Arrival>, subGame: int)
    ensures Valid(CursorOf(RunTracker(map[], arrivals), subGame))
    ensures |AcceptedCore(arrivals, subGame)| == Count(CursorOf(RunTracker(map[], arrivals), subGame))
    ensures forall k :: 0 <= k < |AcceptedCore(arrivals, subGame)| ==>
              var a := AcceptedCore(arrivals, subGame)[k];
              && a.subGame == subGame && IsCore(a.mtype)
              && StreamIndex(a.step, a.mtype) == k
    decreases |arrivals|
  {
    if arrivals != [] {
      AcceptedOrderIsSenderOrder(arrivals[..|arrivals| - 1], subGame);
    }
  }

  /** The next message of the stream is always accepted, and no other core message is. */
  lemma OnlyTheNextIsAccepted(c: Cursor, step: int, t: MessageType)
    requires Valid(c) && IsCore(t)
    ensures CheckMessage(c, step, t).Accepted? <==> StreamIndex(step, t) == Count(c)
    ensures CheckMessage(c, step, t).Accepted? ==>
              Valid(CheckMessage(c, step, t).next) && Count(CheckMessage(c, step, t).next) == Count(c) + 1
  {
  }

  /** A refusal leaves the step and phase of every sub-game as they were; acceptance touches only
      its own sub-game. */
  lemma RefusalLeavesCursors(cs: Cursors, subGame: int, step: int, t: MessageType, other: int)
    ensures !CheckMessage(CursorOf(cs, subGame), step, t).Accepted? || other != subGame || !IsCore(t) ==>
              CursorOf(Advance(cs, subGame, step, t), other) == CursorOf(cs, other)
  {
  }

  class SequenceTracker {
    var cursors: Cursors

    constructor ()
      ensures cursors == map[]
    {
      cursors := map[];
    }

    method CheckAndAdvance(subGame: int, step: int, t: MessageType) returns (accepted: bool)
      modifies this
      ensures accepted == CheckMessage(CursorOf(old(cursors), subGame), step, t).Accepted?
      ensures cursors == Advance(old(cursors), subGame, step, t)
    {
      if subGame !in cursors {
        cursors := cursors[subGame := START];
      }
      var c := cursors[subGame];
      if !IsCore(t) {
        return step == c.step;
      }
      if step != c.step {
        return false;
      }
      if t.Commitment? {
        if c.phase != -1 {
          return false;
        }
        cursors := cursors[subGame := c.(phase := 0)];
        return true;
      }
      if c.phase < 0 {
        return false;
      }
      cursors := cursors[subGame := Cursor(c.step + 1, -1)];
      accepted := true;
    }
  }
}
