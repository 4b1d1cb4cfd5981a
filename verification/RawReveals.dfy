/** The opponent's reveals as the dictionaries that arrive: which keys and values make a hit, a blocked
    move, an answer or evidence that cannot be read, and how they decide a run (services/turn_loop.py,
    turn_prep.py, capture_resolution.py). */
module RawReveals {
  import opened Options
  import opened Geometry
  import opened Grids
  import opened HintRegions
  import opened Json
  import opened Sealing
  import opened Scent
  import opened Reveals
  import opened Messages
  import opened TurnEngine
  import opened TurnFacts
  import opened SubGameRuns
  import opened OutgoingStream
  import L = Lifecycle

  // ----- Cells -----

  /** Under key `f` there is a list whose first two parts equal the coordinates of `p`. */
  predicate Names(d: Dict, f: Field, p: Position) {
    && f in d && d[f].Arr? && |d[f].items| >= 2
    && Denotes(d[f].items[0], p.row) && Denotes(d[f].items[1], p.col)
  }

  predicate HoldsObject(d: Dict, f: Field) {
    f in d && d[f].Obj?
  }

  /** Taking the first and the second part of the value under `f` raises, and not because it is an
      object. */
  predicate HoldsNoPair(d: Dict, f: Field) {
    && f in d && d[f] != Null && !d[f].Obj? && !d[f].Hex?
    && !(d[f].Arr? && |d[f].items| >= 2) && !(d[f].Str? && |d[f].s| >= 2)
  }

  /** The first or the second part of the list under `f` is a list or an object. */
  predicate HoldsNestedPair(d: Dict, f: Field) {
    && f in d && d[f].Arr? && |d[f].items| >= 2
    && (d[f].items[0].Arr? || d[f].items[0].Obj? || d[f].items[1].Arr? || d[f].items[1].Obj?)
  }

  lemma CoordinateIsExact(j: Json, i: int)
    ensures Coordinate(j) == Some(i) <==> Denotes(j, i)
  {
  }

  lemma CellIsRaw(d: Dict, f: Field, p: Position)
    ensures ReadCell(Get(d, f, Null)).NoCell? <==> Silent(d, f)
    ensures ReadCell(Get(d, f, Null)) == Named(p) <==> Names(d, f, p)
    ensures ReadCell(Get(d, f, Null)).MissingKey? <==> HoldsObject(d, f)
    ensures ReadCell(Get(d, f, Null)).Unreadable? <==> HoldsNoPair(d, f)
    ensures ReadCell(Get(d, f, Null)).Unhashable? <==> HoldsNestedPair(d, f)
  {
    hide Denotes, Coordinate;
    NamedIsExact(Get(d, f, Null), p);
    if f in d && d[f].Arr? && |d[f].items| >= 2 {
      CoordinateIsExact(d[f].items[0], p.row);
      CoordinateIsExact(d[f].items[1], p.col);
    }
  }

  /** A hit is a barrier or a capture claim that names the thief's cell; the claim is answered when
      there is one. */
  predicate NamesEither(d: Dict, own: Position) {
    Names(d, BarrierField, own) || Names(d, ClaimField, own)
  }

  lemma HitIsRaw(d: Dict, own: Position)
    ensures Hits(own, ReadReveal(d)) <==> NamesEither(d, own)
    ensures HonestAnswer(own, ReadReveal(d))
         == if NamesEither(d, own) then Some(true) else if Silent(d, ClaimField) then None else Some(false)
  {
    hide ReadCell, Names, Silent;
    CellIsRaw(d, BarrierField, own);
    CellIsRaw(d, ClaimField, own);
  }

  // ----- Hints -----

  /** A value that Python takes for true and that is no text. */
  predicate TrueButNoText(j: Json) {
    match j
    case Bool(b) => b
    case Int(i) => i != 0
    case Num(r) => r != 0.0
    case NonFinite => true
    case Arr(items) => |items| > 0
    case Obj(fields) => exists f :: f in fields
    case _ => false
  }

  /** The text shows the word, in any case, somewhere. */
  ghost predicate Mentions(text: string, word: string) {
    exists i: nat :: i + |word| <= |text| && MentionsAt(text, word, i)
  }

  ghost predicate MentionsAt(text: string, word: string, i: nat)
    requires i + |word| <= |text|
  {
    forall k :: 0 <= k < |word| ==> SameLetter(text[i + k], word[k])
  }

  /** Equal up to the case of the 26 letters. */
  predicate SameLetter(c: char, lower: char) {
    c == lower || ('A' <= c <= 'Z' && c as int + 32 == lower as int)
  }

  predicate AllLower(word: string) {
    forall k :: 0 <= k < |word| ==> 'a' <= word[k] <= 'z'
  }

  lemma MentionIsContained(text: string, word: string)
    requires AllLower(word)
    ensures Contains(Lowered(text), word) <==> Mentions(text, word)
  {
    var low := Lowered(text);
    if Contains(low, word) {
      var i: nat :| i <= |low| && word <= low[i..];
      forall k | 0 <= k < |word| ensures SameLetter(text[i + k], word[k]) {
        assert word[k] == low[i..][k] == low[i + k];
      }
      assert MentionsAt(text, word, i);
    }
    if i: nat :| i + |word| <= |text| && MentionsAt(text, word, i) {
      forall k | 0 <= k < |word| ensures low[i..][k] == word[k] {
        assert SameLetter(text[i + k], word[k]);
      }
      assert word <= low[i..];
    }
  }

  /** The first of the five words, in this order, that the text mentions names the region. */
  ghost predicate Speaks(text: string, region: Option<Region>) {
    match region
    case Some(Northern) => Mentions(text, "northern")
    case Some(Southern) => !Mentions(text, "northern") && Mentions(text, "southern")
    case Some(Eastern) => !Mentions(text, "northern") && !Mentions(text, "southern") && Mentions(text, "eastern")
    case Some(Western) =>
      && !Mentions(text, "northern") && !Mentions(text, "southern") && !Mentions(text, "eastern")
      && Mentions(text, "western")
    case Some(Central) =>
      && !Mentions(text, "northern") && !Mentions(text, "southern") && !Mentions(text, "eastern")
      && !Mentions(text, "western") && Mentions(text, "central")
    case None =>
      && !Mentions(text, "northern") && !Mentions(text, "southern") && !Mentions(text, "eastern")
      && !Mentions(text, "western") && !Mentions(text, "central")
  }

  lemma RegionIsRaw(text: string, region: Option<Region>)
    ensures ParseRegion(text) == region <==> Speaks(text, region)
  {
    hide Contains, Mentions, ParseRegion;
    NorthAndSouth(text);
    EastAndWest(text);
    FirstOfFive(text);
  }

  lemma NorthAndSouth(text: string)
    ensures Contains(Lowered(text), "northern") <==> Mentions(text, "northern")
    ensures Contains(Lowered(text), "southern") <==> Mentions(text, "southern")
  {
    hide Contains, Mentions;
    MentionIsContained(text, "northern");
    MentionIsContained(text, "southern");
  }

  lemma EastAndWest(text: string)
    ensures Contains(Lowered(text), "eastern") <==> Mentions(text, "eastern")
    ensures Contains(Lowered(text), "western") <==> Mentions(text, "western")
    ensures Contains(Lowered(text), "central") <==> Mentions(text, "central")
  {
    hide Contains, Mentions;
    MentionIsContained(text, "eastern");
    MentionIsContained(text, "western");
    MentionIsContained(text, "central");
  }

  lemma FirstOfFive(text: string)
    ensures var low := Lowered(text);
            ParseRegion(text)
            == if Contains(low, "northern") then Some(Northern)
               else if Contains(low, "southern") then Some(Southern)
               else if Contains(low, "eastern") then Some(Eastern)
               else if Contains(low, "western") then Some(Western)
               else if Contains(low, "central") then Some(Central) else None
  {
    hide Contains;
    var low := Lowered(text);
    assert FirstRegion(low, 5) == None;
    assert FirstRegion(low, 4) == if Contains(low, "central") then Some(Central) else FirstRegion(low, 5);
    assert FirstRegion(low, 3) == if Contains(low, "western") then Some(Western) else FirstRegion(low, 4);
    assert FirstRegion(low, 2) == if Contains(low, "eastern") then Some(Eastern) else FirstRegion(low, 3);
    assert FirstRegion(low, 1) == if Contains(low, "southern") then Some(Southern) else FirstRegion(low, 2);
    assert FirstRegion(low, 0) == if Contains(low, "northern") then Some(Northern) else FirstRegion(low, 1);
  }

  /** The hint raises exactly when it is true but no text, and tells something exactly when it is a text
      that mentions a region. */
  lemma HintIsRaw(d: Dict, n: nat, region: Region)
    ensures ReadReveal(d).hint.NotText? <==> HintField in d && TrueButNoText(d[HintField])
    ensures HintField in d && d[HintField].Str? && Speaks(d[HintField].s, Some(region)) ==>
              HintCellsOf(ReadReveal(d).hint, n) == Some(RegionCells(region, n))
    ensures (HintField in d && d[HintField].Str? ==> Speaks(d[HintField].s, None)) ==>
              HintCellsOf(ReadReveal(d).hint, n) == None
  {
    hide ParseRegion, RegionCells, Speaks, ReadCell;
    if HintField in d && d[HintField].Str? {
      var text := d[HintField].s;
      RegionIsRaw(text, Some(region));
      RegionIsRaw(text, None);
      EmptySpeaksNothing();
    }
    if HintField in d && d[HintField].Obj? && d[HintField].fields != map[] {
      var f :| f in d[HintField].fields;
    }
  }

  lemma EmptySpeaksNothing()
    ensures !Speaks("", Some(Northern)) && !Speaks("", Some(Southern)) && !Speaks("", Some(Eastern))
    ensures !Speaks("", Some(Western)) && !Speaks("", Some(Central))
  {
  }

  // ----- What a reveal does -----

  /** The scent grid's first defect is an integer that no double can hold. */
  ghost predicate HoldsOverflow(d: Dict, n: nat) {
    ScentGridField in d && exists r: nat, c: nat :: OverflowsAt(d[ScentGridField], n, r, c)
  }

  lemma ScentIsRaw(d: Dict, n: nat)
    ensures ReadReveal(d).scentGrid == if ScentGridField in d then d[ScentGridField] else Null
    ensures ValidateScentGrid(ReadReveal(d).scentGrid, n).Overflow? <==> HoldsOverflow(d, n)
  {
    hide ValidateScentGrid, ReadCell, ReadHint, OverflowsAt, FLOAT_OVERFLOW;
    OverflowIsExact(ReadReveal(d).scentGrid, n);
    NoGridNoOverflow(n);
  }

  lemma NoGridNoOverflow(n: nat)
    ensures ValidateScentGrid(Null, n) == Rejected(Missing)
  {
  }

  /** An object is read as a cell: the barrier, or the claim if no barrier names the own cell. */
  predicate IsKeyless(d: Dict, own: Position) {
    || HoldsObject(d, BarrierField)
    || (!HoldsNoPair(d, BarrierField) && !Names(d, BarrierField, own) && HoldsObject(d, ClaimField))
  }

  /** Something else in the evidence cannot be read: one of the two cells, the claim only if no barrier
      names the own cell; the scent grid; the hint; or the parts of the barrier as coordinates. */
  ghost predicate IsGarbled(d: Dict, n: nat, own: Position) {
    && !IsKeyless(d, own)
    && (|| HoldsNoPair(d, BarrierField) || (!Names(d, BarrierField, own) && HoldsNoPair(d, ClaimField))
        || HoldsOverflow(d, n) || (HintField in d && TrueButNoText(d[HintField])) || HoldsNestedPair(d, BarrierField))
  }

  /** What the dictionary `d` does to a thief on `own` that has decided to move in direction `dir`. */
  ghost predicate Does(d: Dict, n: nat, own: Position, dir: Direction, met: Encounter) {
    match met
    case Keyless => IsKeyless(d, own)
    case Garbled => IsGarbled(d, n, own)
    case Hit => !IsKeyless(d, own) && !IsGarbled(d, n, own) && NamesEither(d, own)
    case Blocked =>
      && !IsKeyless(d, own) && !IsGarbled(d, n, own) && !NamesEither(d, own)
      && Names(d, BarrierField, Move(own, dir))
    case Quiet =>
      && !IsKeyless(d, own) && !IsGarbled(d, n, own) && !NamesEither(d, own)
      && !Names(d, BarrierField, Move(own, dir))
  }

  /** Each of the five effects of a reveal, for every dictionary whatever, as an equivalence with what
      is under its keys. */
  lemma EncounterIsRaw(d: Dict, n: nat, own: Position, dir: Direction, met: Encounter)
    ensures EncounterOf(n, own, dir, ReadReveal(d)) == met <==> Does(d, n, own, dir, met)
  {
    hide ReadCell, ReadHint, ValidateScentGrid, Names, HoldsObject, HoldsNoPair, HoldsNestedPair, HoldsOverflow,
      TrueButNoText, Silent, Move;
    CellIsRaw(d, BarrierField, own);
    CellIsRaw(d, ClaimField, own);
    CellIsRaw(d, BarrierField, Move(own, dir));
    ScentIsRaw(d, n);
    HintIsRaw(d, n, Northern);
  }

  // ----- Runs -----

  /** What reveal `i`, as it arrived, did to the thief where record `i` says it was. */
  ghost predicate TurnDoes(cfg: Config, records: seq<OwnRecord>, inputs: Inputs, i: nat, met: Encounter)
    requires i < |records| && inputs(i).answer.Acked?
  {
    Does(inputs(i).answer.info, cfg.gridSize, records[i].turn.position, records[i].turn.move, met)
  }

  lemma MetIsRaw(cfg: Config, records: seq<OwnRecord>, inputs: Inputs, i: nat, met: Encounter)
    requires i < |records| && inputs(i).answer.Acked?
    ensures Met(cfg, records, inputs, i) == met <==> TurnDoes(cfg, records, inputs, i, met)
  {
    hide EncounterOf, Does, ReadReveal;
    EncounterIsRaw(inputs(i).answer.info, cfg.gridSize, records[i].turn.position, records[i].turn.move, met);
  }

  ghost predicate NothingBefore(cfg: Config, records: seq<OwnRecord>, inputs: Inputs, k: nat)
    requires k <= |records| && forall i :: 0 <= i < k ==> inputs(i).answer.Acked?
  {
    forall i :: 0 <= i < k ==> TurnDoes(cfg, records, inputs, i, Quiet)
  }

  ghost predicate FirstDoes(cfg: Config, records: seq<OwnRecord>, inputs: Inputs, k: nat, met: Encounter)
    requires forall i :: 0 <= i < |records| ==> inputs(i).answer.Acked?
  {
    && k < |records| && k < cfg.threshold
    && NothingBefore(cfg, records, inputs, k) && TurnDoes(cfg, records, inputs, k, met)
  }

  lemma FirstIsRaw(cfg: Config, records: seq<OwnRecord>, inputs: Inputs, k: nat, met: Encounter)
    requires forall i :: 0 <= i < |records| ==> inputs(i).answer.Acked?
    ensures FirstMeets(cfg, records, inputs, k, met) <==> FirstDoes(cfg, records, inputs, k, met)
    ensures k <= |records| ==> (QuietUpTo(cfg, records, inputs, k) <==> NothingBefore(cfg, records, inputs, k))
  {
    hide Met, TurnDoes;
    forall i | 0 <= i < |records|
      ensures Met(cfg, records, inputs, i) == Quiet <==> TurnDoes(cfg, records, inputs, i, Quiet)
    {
      MetIsRaw(cfg, records, inputs, i, Quiet);
    }
    if k < |records| {
      MetIsRaw(cfg, records, inputs, k, met);
    }
  }

  /** The outcome of a fresh sub-game whose deliveries succeed, over the dictionaries that arrived: a
      capture with k+2 records if and only if reveal k is the first that does anything and its barrier
      or its claim names the cell of record k; and so on for each other outcome. */
  lemma DictionariesDecide(cfg: Config, number: nat, m: L.Machine, inputs: Inputs, k: nat)
    requires cfg.Valid() && m.state.Waiting? && L.Clean(m) && L.Explained(L.Initializing, m)
    requires AllDelivered(inputs, cfg.threshold + 1)
    ensures var (t, r) := RunTurns(cfg, InitialState(cfg, number, m), inputs, 0, cfg.threshold + 1);
            var n := |t.records|;
            && n <= cfg.threshold + 1 && (forall i :: 0 <= i < n ==> inputs(i).answer.Acked?)
            && (r == Ended(Capture) && n == k + 2 <==> FirstDoes(cfg, t.records, inputs, k, Hit))
            && (r == Ended(Survival) <==> n == cfg.threshold && NothingBefore(cfg, t.records, inputs, n))
            && (r == Ended(TechnicalLoss) && n == k + 1 <==> FirstDoes(cfg, t.records, inputs, k, Keyless))
            && (r == Raised(Cause.IllegalAction) && n == k + 1 <==> FirstDoes(cfg, t.records, inputs, k, Blocked))
            && (r == Raised(MalformedEvidence) && n == k + 1 <==> FirstDoes(cfg, t.records, inputs, k, Garbled))
            && (r.Ended? || r == Raised(Cause.IllegalAction) || r == Raised(MalformedEvidence))
  {
    hide RunTurns, FirstMeets, FirstDoes, QuietUpTo, NothingBefore, InitialState, InSync;
    OutcomeIsDecidedByReveals(cfg, number, m, inputs, k);
    InitialIsInSync(cfg, number, m, inputs);
    assert InitialState(cfg, number, m).step == 0 by { InitialFields(cfg, number, m); }
    RecordsWithinCap(cfg, InitialState(cfg, number, m), inputs, cfg.threshold + 1);
    var (t, r) := RunTurns(cfg, InitialState(cfg, number, m), inputs, 0, cfg.threshold + 1);
    forall i | 0 <= i < |t.records| ensures inputs(i).answer.Acked? {
      assert BothDelivered(inputs(i));
    }
    FirstIsRaw(cfg, t.records, inputs, k, Hit);
    FirstIsRaw(cfg, t.records, inputs, k, Keyless);
    FirstIsRaw(cfg, t.records, inputs, k, Blocked);
    FirstIsRaw(cfg, t.records, inputs, k, Garbled);
    FirstIsRaw(cfg, t.records, inputs, |t.records|, Quiet);
  }

  /** The late answer as it is published, in any lawful run: the reveal of record i+1 says true exactly
      when the barrier or the claim of reveal i named the cell of record i, false exactly when reveal i
      only claimed something else, and null otherwise; the first reveal says null. */
  lemma LateAnswerIsPublished(cfg: Config, number: nat, records: seq<OwnRecord>, inputs: Inputs, s: Session, i: nat)
    requires Lawful(cfg, number, records, inputs) && i < |records|
    ensures RevealOf(s, records[i]).body.Obj?
    ensures var d := RevealOf(s, records[i]).body.fields;
            && ClaimResponseField in d
            && if i == 0 then d[ClaimResponseField] == Null
               else
                 && inputs(i - 1).answer.Acked?
                 && var own, seen := records[i - 1].turn.position, inputs(i - 1).answer.info;
                    && (d[ClaimResponseField] == Bool(true) <==> NamesEither(seen, own))
                    && (d[ClaimResponseField] == Bool(false) <==> !NamesEither(seen, own) && !Silent(seen, ClaimField))
                    && (d[ClaimResponseField] == Null <==> !NamesEither(seen, own) && Silent(seen, ClaimField))
  {
    hide NamesEither, Silent, HonestAnswer, ReadReveal, RevealOf, ShowsPlay, ShowsText, FieldAfter, PayloadOf,
      CommitHash, IsGridOf, LegalDirections;
    PublishedFields(s, records[i]);
    assert LawfulRecord(cfg, number, records, inputs, i);
    PlayKeys(RevealOf(s, records[i]).body.fields);
    if i > 0 {
      assert LawfulRecord(cfg, number, records, inputs, i - 1);
      HitIsRaw(inputs(i - 1).answer.info, records[i - 1].turn.position);
    }
  }
}
