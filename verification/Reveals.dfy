/** Reading an opponent's public reveal, whatever it contains (services/capture_resolution.py,
    turn_prep.py; domain/hint_region.py). */
module Reveals {
  import opened Options
  import opened Geometry
  import opened HintRegions
  import opened Json

  /** A cell field as the code reads it: absent; the coordinates of a cell; coordinates that equal no
      cell; coordinates that cannot be hashed; an object, whose lookup raises KeyError; or a value
      whose parts cannot be read at all. */
  datatype Cell = NoCell | Named(at: Position) | Elsewhere | Unhashable | MissingKey | Unreadable

  /** The integer a value equals, if any. */
  function Coordinate(j: Json): Option<int> {
    match j
    case Int(i) => Some(i)
    case Bool(b) => Some(if b then 1 else 0)
    case Num(r) => if r == r.Floor as real then Some(r.Floor) else None
    case _ => None
  }

  function ReadPair(row: Json, col: Json): Cell {
    if !Hashable(row) || !Hashable(col) then Unhashable
    else
      var r, c := Coordinate(row), Coordinate(col);
      if r.Some? && c.Some? then Named(Position(r.value, c.value)) else Elsewhere
  }

  function ReadCell(j: Json): Cell {
    match j
    case Null => NoCell
    case Arr(items) => if |items| < 2 then Unreadable else ReadPair(items[0], items[1])
    case Str(text) => if |text| < 2 then Unreadable else Elsewhere
    case Hex(_) => Elsewhere
    case Obj(_) => MissingKey
    case _ => Unreadable
  }

  /** A field names a cell exactly when it is a list whose first two parts equal the coordinates. */
  lemma NamedIsExact(j: Json, p: Position)
    ensures ReadCell(j) == Named(p) <==>
              && j.Arr? && |j.items| >= 2
              && Coordinate(j.items[0]) == Some(p.row) && Coordinate(j.items[1]) == Some(p.col)
  {
  }

  // ----- Hints -----

  /** A hint field: absent or empty, a text with the region it names, or something that is no text. */
  datatype Hint = NoHint | Text(region: Option<Region>) | NotText

  function Lower(c: char): char {
    if 'A' <= c <= 'Z' then (c as int + 32) as char else c
  }

  function Lowered(text: string): (low: string)
    ensures |low| == |text| && forall i :: 0 <= i < |text| ==> low[i] == Lower(text[i])
  {
    seq(|text|, i requires 0 <= i < |text| => Lower(text[i]))
  }

  predicate Contains(text: string, word: string) {
    exists i :: 0 <= i <= |text| && word <= text[i..]
  }

  const REGIONS: seq<Region> := [Northern, Southern, Eastern, Western, Central]

  function Word(r: Region): string {
    match r
    case Northern => "northern"
    case Southern => "southern"
    case Eastern => "eastern"
    case Western => "western"
    case Central => "central"
  }

  /** The first region, from the `k`-th on, whose word occurs in the lower-case text. */
  function FirstRegion(low: string, k: nat): (r: Option<Region>)
    ensures r.None? ==> forall j :: k <= j < |REGIONS| ==> !Contains(low, Word(REGIONS[j]))
    ensures r.Some? ==> exists j :: k <= j < |REGIONS| && REGIONS[j] == r.value && Contains(low, Word(REGIONS[j]))
                                    && forall i :: k <= i < j ==> !Contains(low, Word(REGIONS[i]))
    decreases |REGIONS| - k
  {
    if k >= |REGIONS| then None
    else if Contains(low, Word(REGIONS[k])) then Some(REGIONS[k])
    else FirstRegion(low, k + 1)
  }

  function ParseRegion(text: string): Option<Region> {
    FirstRegion(Lowered(text), 0)
  }

  /** The loop over the region words. */
  method ParseRegionFromHint(text: string) returns (r: Option<Region>)
    ensures r == ParseRegion(text)
  {
    var low := Lowered(text);
    for k := 0 to |REGIONS|
      invariant FirstRegion(low, 0) == FirstRegion(low, k)
    {
      if Contains(low, Word(REGIONS[k])) {
        return Some(REGIONS[k]);
      }
    }
    r := None;
  }

  /** Where a word stands in a text, its case does not matter and it is found. */
  lemma WordIsFound(before: string, r: Region, word: string, after: string)
    requires Lowered(word) == Word(r)
    ensures Contains(Lowered(before + word + after), Word(r))
    ensures ParseRegion(before + word + after).Some?
  {
    var low := Lowered(before + word + after);
    assert low[|before|..][..|word|] == Word(r);
    assert Word(r) <= low[|before|..];
    var k := match r case Northern => 0 case Southern => 1 case Eastern => 2 case Western => 3 case Central => 4;
    assert REGIONS[k] == r;
  }

  function ReadHint(j: Json): Hint {
    if !Truthy(j) then NoHint
    else
      match j
      case Str(text) => Text(ParseRegion(text))
      case Hex(_) => Text(None)
      case _ => NotText
  }

  /** The cells a hint refers to, if it names a region. */
  function HintCellsOf(h: Hint, n: nat): Option<set<Position>> {
    if h.Text? && h.region.Some? then Some(RegionCells(h.region.value, n)) else None
  }

  // ----- The reveal -----

  /** What the turn takes from a reveal. */
  datatype OpponentTurn = OpponentTurn(claim: Cell, barrier: Cell, scentGrid: Json, hint: Hint)

  function ReadReveal(d: Dict): OpponentTurn {
    OpponentTurn(ReadCell(Get(d, ClaimField, Null)), ReadCell(Get(d, BarrierField, Null)),
                 Get(d, ScentGridField, Null), ReadHint(Get(d, HintField, Null)))
  }
}
