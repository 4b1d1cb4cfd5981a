/** The bounded flood fill behind the mobility score (strategy/entropy_escape_utility.py). */
module FloodFill {
  import opened Geometry

  /** A walk: every step goes to an adjacent open cell. */
  ghost predicate Walk(board: Board, w: seq<Position>) {
    |w| >= 1 && forall i :: 0 < i < |w| ==> Adjacent(w[i - 1], w[i]) && board.Open(w[i])
  }

  ghost predicate Reachable(board: Board, a: Position, b: Position) {
    exists w :: Walk(board, w) && w[0] == a && w[|w| - 1] == b
  }

  ghost function Universe(board: Board, start: Position): set<Position> {
    Block(0, board.size, 0, board.size) + {start}
  }

  /** The true connected component of a cell. */
  ghost function Component(board: Board, start: Position): set<Position> {
    set q | q in Universe(board, start) && Reachable(board, start, q)
  }

  function Smaller(x: int, y: int): int {
    if x < y then x else y
  }

  /** `S` contains every open neighbour of `cell`. */
  ghost predicate Expanded(board: Board, cell: Position, S: set<Position>) {
    forall q :: Adjacent(cell, q) && board.Open(q) ==> q in S
  }

  lemma StartIsReachable(board: Board, start: Position)
    ensures start in Component(board, start)
  {
    var w := [start];
    assert Walk(board, w) && w[0] == start && w[|w| - 1] == start;
  }

  lemma StepIsReachable(board: Board, start: Position, cell: Position, q: Position)
    requires cell in Component(board, start) && Adjacent(cell, q) && board.Open(q)
    ensures q in Component(board, start)
  {
    var w :| Walk(board, w) && w[0] == start && w[|w| - 1] == cell;
    var longer := w + [q];
    assert Walk(board, longer) && longer[0] == start && longer[|longer| - 1] == q;
  }

  lemma {:induction false} WalksStayInside(board: Board, S: set<Position>, w: seq<Position>)
    requires Walk(board, w) && w[0] in S
    requires forall cell :: cell in S ==> Expanded(board, cell, S)
    ensures w[|w| - 1] in S
  {
    if |w| > 1 {
      WalksStayInside(board, S, w[..|w| - 1]);
      assert Expanded(board, w[|w| - 2], S);
    }
  }

  lemma ClosedSetsCoverComponent(board: Board, S: set<Position>, start: Position)
    requires start in S && forall cell :: cell in S ==> Expanded(board, cell, S)
    ensures Component(board, start) <= S
  {
    forall q | q in Component(board, start) ensures q in S {
      var w :| Walk(board, w) && w[0] == start && w[|w| - 1] == q;
      WalksStayInside(board, S, w);
    }
  }

  lemma SubsetSize<T>(a: set<T>, b: set<T>)
    requires a <= b
    ensures |a| <= |b|
  {
    assert b == a + (b - a);
  }

  /** The neighbours of `cell` that are open, not yet seen, and listed among the first `i`. */
  function Fresh(board: Board, neighbours: seq<Position>, seen: set<Position>, i: nat): (added: seq<Position>)
    requires i <= |neighbours|
    ensures |added| <= i
    ensures forall q :: q in added ==> q in neighbours && q !in board.barriers && q !in seen
    ensures forall j :: 0 <= j < i ==>
              neighbours[j] in board.barriers || neighbours[j] in seen || neighbours[j] in added
    ensures forall j, k :: 0 <= j < k < |added| ==> added[j] != added[k]
  {
    if i == 0 then []
    else
      var before := Fresh(board, neighbours, seen, i - 1);
      var q := neighbours[i - 1];
      if q in board.barriers || q in seen || q in before then before else before + [q]
  }

  function Elements(cells: seq<Position>): (s: set<Position>)
    ensures forall q :: q in s <==> q in cells
  {
    set q | q in cells
  }

  lemma NothingFresh(board: Board, neighbours: seq<Position>, seen: set<Position>)
    ensures Fresh(board, neighbours, seen, 0) == [] && Elements([]) == {}
  {
  }

  /** One more neighbour is looked at. */
  lemma FreshStep(board: Board, neighbours: seq<Position>, seen: set<Position>, i: nat)
    requires i < |neighbours|
    ensures var before, after := Fresh(board, neighbours, seen, i), Fresh(board, neighbours, seen, i + 1);
            var q := neighbours[i];
            if q in board.barriers || q in seen || q in Elements(before) then after == before
            else after == before + [q] && Elements(after) == Elements(before) + {q}
  {
  }

  /** The inner loop: the fresh neighbours are added to both the seen set and the queue. */
  method AddFresh(board: Board, neighbours: seq<Position>, seen: set<Position>, queue: seq<Position>)
    returns (seenAfter: set<Position>, queueAfter: seq<Position>)
    ensures var added := Fresh(board, neighbours, seen, |neighbours|);
            && queueAfter == queue + added
            && seenAfter == seen + Elements(added)
  {
    hide Fresh, Elements;
    seenAfter, queueAfter := seen, queue;
    NothingFresh(board, neighbours, seen);
    for i := 0 to |neighbours|
      invariant queueAfter == queue + Fresh(board, neighbours, seen, i)
      invariant seenAfter == seen + Elements(Fresh(board, neighbours, seen, i))
    {
      var neighbour := neighbours[i];
      FreshStep(board, neighbours, seen, i);
      if neighbour in board.barriers || neighbour in seenAfter {
        continue;
      }
      Append(queue, Fresh(board, neighbours, seen, i), neighbour);
      seenAfter := seenAfter + {neighbour};
      queueAfter := queueAfter + [neighbour];
    }
  }

  lemma Append<T>(a: seq<T>, b: seq<T>, x: T)
    ensures (a + b) + [x] == a + (b + [x])
  {
  }

  lemma OneMore(s: set<Position>, q: Position)
    ensures |s + {q}| <= |s| + 1
  {
    if q in s {
      assert s + {q} == s;
    }
  }

  lemma LastElement(added: seq<Position>)
    requires added != []
    ensures Elements(added) == Elements(added[..|added| - 1]) + {added[|added| - 1]}
  {
    assert added == added[..|added| - 1] + [added[|added| - 1]];
  }

  lemma {:induction false} AtMostOneEach(seen: set<Position>, added: seq<Position>)
    ensures |seen + Elements(added)| <= |seen| + |added|
  {
    hide Elements;
    if added == [] {
      NoElements();
      assert seen + {} == seen;
    } else {
      var k := |added| - 1;
      AtMostOneEach(seen, added[..k]);
      LastElement(added);
      OneMore(seen + Elements(added[..k]), added[k]);
      assert seen + (Elements(added[..k]) + {added[k]}) == (seen + Elements(added[..k])) + {added[k]};
    }
  }

  lemma NoElements()
    ensures Elements([]) == {}
  {
  }

  ghost predicate Explored(board: Board, start: Position, seen: set<Position>, queue: seq<Position>) {
    && start in seen && seen <= Component(board, start)
    && (forall i :: 0 <= i < |queue| ==> queue[i] in seen)
    && (forall cell :: cell in seen ==> cell in queue || Expanded(board, cell, seen))
  }

  lemma ExpandKeepsExplored(board: Board, start: Position, seen: set<Position>, queue: seq<Position>,
                            added: seq<Position>)
    requires Explored(board, start, seen, queue) && queue != []
    requires added == Fresh(board, board.AdjacentCells(queue[0]), seen, |board.AdjacentCells(queue[0])|)
    ensures Explored(board, start, seen + Elements(added), queue[1..] + added)
    ensures added != [] ==> added[0] in Component(board, start) - seen
  {
    hide Component;
    var cell := queue[0];
    var neighbours := board.AdjacentCells(cell);
    var seenAfter := seen + Elements(added);
    forall q | q in added ensures q in Component(board, start) && q !in seen {
      assert q in neighbours;
      StepIsReachable(board, start, cell, q);
    }
    assert Expanded(board, cell, seenAfter) by {
      forall q | Adjacent(cell, q) && board.Open(q) ensures q in seenAfter {
        var j :| 0 <= j < |neighbours| && neighbours[j] == q;
      }
    }
    forall c | c in seenAfter ensures c in queue[1..] + added || Expanded(board, c, seenAfter) {
      if c in seen && c != cell && c in queue {
        assert c in queue[1..];
      }
    }
  }

  /** Up to the limit the bounded search counts the true connected component; it never counts a
      cell outside it, overshoots the limit by at most three, and always terminates. */
  method ReachableArea(board: Board, start: Position, limit: int) returns (area: nat)
    ensures start in board.barriers ==> area == 0
    ensures start !in board.barriers ==> 1 <= area <= |Component(board, start)|
    ensures start !in board.barriers ==> Smaller(area, limit) == Smaller(|Component(board, start)|, limit)
    ensures area <= if limit <= 1 then 1 else limit + 3
  {
    if start in board.barriers {
      return 0;
    }
    hide Component, Expanded, Fresh, Explored;
    ghost var component := Component(board, start);
    StartIsExplored(board, start);
    var seen := {start};
    var queue := [start];
    while queue != [] && |seen| < limit
      invariant Explored(board, start, seen, queue)
      invariant 1 <= |seen| <= if limit <= 1 then 1 else limit + 3
      decreases component - seen, |queue|
    {
      var neighbours := board.AdjacentCells(queue[0]);
      ghost var added := Fresh(board, neighbours, seen, |neighbours|);
      ghost var seenBefore := seen;
      ExpandKeepsExplored(board, start, seen, queue, added);
      seen, queue := AddFresh(board, neighbours, seen, queue[1..]);
      AtMostOneEach(seenBefore, added);
      if added != [] {
        assert added[0] in Elements(added);
        assert added[0] in component - seenBefore && added[0] !in component - seen;
      } else {
        assert seen == seenBefore;
      }
    }
    ExploredSize(board, start, seen, queue);
    area := |seen|;
  }

  lemma StartIsExplored(board: Board, start: Position)
    ensures Explored(board, start, {start}, [start])
  {
    StartIsReachable(board, start);
  }

  lemma ExploredSize(board: Board, start: Position, seen: set<Position>, queue: seq<Position>)
    requires Explored(board, start, seen, queue)
    ensures |seen| <= |Component(board, start)|
    ensures queue == [] ==> |seen| == |Component(board, start)|
  {
    SubsetSize(seen, Component(board, start));
    if queue == [] {
      ClosedSetsCoverComponent(board, seen, start);
      assert seen == Component(board, start);
    }
  }
}
