/** The board cells a cardinal region word refers to (domain/hint_region.py). */
module HintRegions {
  import opened Geometry

  datatype Region = Northern | Southern | Eastern | Western | Central

  function Third(n: nat): nat {
    if n / 3 < 1 then 1 else n / 3
  }

  function RegionCells(region: Region, n: nat): set<Position> {
    var t := Third(n);
    match region
    case Northern => Block(0, t, 0, n)
    case Southern => Block(n - t, n, 0, n)
    case Western => Block(0, n, 0, t)
    case Eastern => Block(0, n, n - t, n)
    case Central =>
      var middle := Block(t, n - t, t, n - t);
      if middle == {} then {Position(n / 2, n / 2)} else middle
  }

  /** On every board each region word denotes at least one cell, and only cells of the board. */
  lemma RegionsAreOnBoard(region: Region, n: nat)
    requires n >= 1
    ensures RegionCells(region, n) != {}
    ensures forall q :: q in RegionCells(region, n) ==> Within(n, q)
  {
    var t := Third(n);
    assert Position(0, 0) in Block(0, t, 0, n) && Position(0, 0) in Block(0, n, 0, t);
    assert Position(n - 1, 0) in Block(n - t, n, 0, n) && Position(0, n - 1) in Block(0, n, n - t, n);
  }

  /** The cells of each region word: a band of a third of the board, at least one line wide, along the
      named edge; the central word leaves those bands out, and means the middle cell of a board of
      side one or two, where nothing else is left. */
  lemma RegionsAreThirds(n: nat, q: Position)
    requires n >= 1
    ensures var third := if n < 3 then 1 else n / 3;
            && (q in RegionCells(Northern, n) <==> Within(n, q) && q.row < third)
            && (q in RegionCells(Southern, n) <==> Within(n, q) && q.row >= n - third)
            && (q in RegionCells(Western, n) <==> Within(n, q) && q.col < third)
            && (q in RegionCells(Eastern, n) <==> Within(n, q) && q.col >= n - third)
            && (q in RegionCells(Central, n) <==>
                  if n < 3 then q == Position(n / 2, n / 2)
                  else third <= q.row < n - third && third <= q.col < n - third)
  {
    var t := Third(n);
    if n >= 3 {
      assert Position(t, t) in Block(t, n - t, t, n - t);
    } else {
      assert Block(t, n - t, t, n - t) == {};
    }
  }
}
