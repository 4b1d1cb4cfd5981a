/** The sealed per-step payload, its canonical form, its commitment and the final audit
    (domain/sealing/payload.py, commit.py, audit.py). */
module Sealing {
  import opened Options
  import opened Geometry
  import opened Grids
  import opened Json

  const CURRENT_SCHEMA := "commitment/1"
  const LEGACY_SCHEMAS := {"sealed-turn/1", "sealed-turn/2"}

  /** Field values are JSON, because records are also rebuilt from logs of unknown origin; tuples
      are sequences. */
  datatype Payload = Payload(
    step: Json, role: Json, subGame: Json, position: seq<Json>, move: Json, intent: Json, hint: Json,
    scentDigest: Json, scentGrid: seq<seq<Json>>, timestamp: Json, nonce: Json, config: Json,
    barrier: Option<seq<Json>>, claim: Option<seq<Json>>, claimResponse: Json, winClaim: Json,
    schema: Json, legacyState: Option<Json>)

  predicate IsLegacy(p: Payload) {
    p.schema.Str? && p.schema.s in LEGACY_SCHEMAS
  }

  function CellList(cell: Option<seq<Json>>): Json {
    if cell.None? || cell.value == [] then Null else Arr(cell.value)
  }

  function GridList(grid: seq<seq<Json>>): Json {
    Arr(seq(|grid|, r requires 0 <= r < |grid| => Arr(grid[r])))
  }

  /** The digest string of a legacy record: carried through, or formatted from its own cell (the
      formatted text is represented by its parts). */
  function LegacyState(p: Payload): Json {
    match p.legacyState
    case Some(text) => text
    case None => Arr([Str("pos"), Arr(p.position), Str("visited=1")])
  }

  /** The field set of the current schema. */
  predicate IsCanonical(f: Field) {
    !f.StateField? && !f.CommitHashField? && !f.OtherField?
  }

  /** A legacy record has its state text in place of the position. */
  predicate IsKeyOf(p: Payload, f: Field) {
    if IsLegacy(p) then f.StateField? || (IsCanonical(f) && !f.PositionField?) else IsCanonical(f)
  }

  function FieldValue(p: Payload, f: Field): Json {
    match f
    case SchemaField => p.schema
    case StepField => p.step
    case RoleField => p.role
    case SubGameField => p.subGame
    case PositionField => Arr(p.position)
    case StateField => LegacyState(p)
    case MoveField => p.move
    case IntentField => p.intent
    case HintField => p.hint
    case ScentDigestField => p.scentDigest
    case ScentGridField => GridList(p.scentGrid)
    case BarrierField => CellList(p.barrier)
    case ClaimField => CellList(p.claim)
    case ClaimResponseField => p.claimResponse
    case WinClaimField => p.winClaim
    case ConfigField => p.config
    case TimestampField => p.timestamp
    case NonceField => p.nonce
    case CommitHashField => Null
    case OtherField(_) => Null
  }

  /** Pairs up some keys with their values. */
  function Entries(p: Payload, keys: seq<Field>): (d: Dict)
    ensures forall f :: f in d <==> f in keys
    ensures forall f :: f in d ==> d[f] == FieldValue(p, f)
  {
    map f | f in keys :: FieldValue(p, f)
  }

  function TurnKeys(): (keys: seq<Field>)
    ensures forall f :: f in keys <==> f.SchemaField? || f.StepField? || f.RoleField? || f.SubGameField? || f.MoveField?
  {
    [SchemaField, StepField, RoleField, SubGameField, MoveField]
  }

  function PublicKeys(): (keys: seq<Field>)
    ensures forall f :: f in keys <==>
              || f.HintField? || f.ScentDigestField? || f.ScentGridField? || f.BarrierField? || f.ClaimField?
              || f.ClaimResponseField? || f.WinClaimField?
  {
    [HintField, ScentDigestField, ScentGridField, BarrierField, ClaimField, ClaimResponseField, WinClaimField]
  }

  function SealKeys(): (keys: seq<Field>)
    ensures forall f :: f in keys <==> f.IntentField? || f.ConfigField? || f.TimestampField? || f.NonceField?
  {
    [IntentField, ConfigField, TimestampField, NonceField]
  }

  /** The keys that every schema has. */
  function CommonKeys(): (keys: seq<Field>)
    ensures forall f :: f in keys <==> IsCanonical(f) && !f.PositionField?
  {
    hide TurnKeys, PublicKeys, SealKeys;
    TurnKeys() + PublicKeys() + SealKeys()
  }

  /** The dictionary that is hashed. */
  function Canonical(p: Payload): (d: Dict)
    ensures forall f :: f in d <==> IsKeyOf(p, f)
    ensures forall f :: f in d ==> d[f] == FieldValue(p, f)
  {
    hide CommonKeys;
    Entries(p, CommonKeys() + [if IsLegacy(p) then StateField else PositionField])
  }

  function CommitHash(p: Payload): Json {
    CanonicalSha256(Obj(Canonical(p)))
  }

  datatype SealedRecord = SealedRecord(payload: Payload, commitHash: Json)

  function Seal(p: Payload): SealedRecord {
    SealedRecord(p, CommitHash(p))
  }

  /** What may be shown at reveal time: everything but the nonce and the intent. */
  function PublicReveal(p: Payload): Dict {
    Canonical(p) - {NonceField, IntentField}
  }

  /** One peer's own honest turn. */
  datatype TurnData = TurnData(step: nat, subGame: nat, position: Position, move: Direction, intent: string,
                               hint: string, scent: Grid, claimResponse: Option<bool>, timestamp: string,
                               nonce: string, config: string)

  function DirectionName(d: Direction): string {
    match d case North => "N" case South => "S" case East => "E" case West => "W" case Stay => "STAY"
  }

  function Cell(p: Position): seq<Json> {
    [Int(p.row), Int(p.col)]
  }

  function NumberRows(grid: Grid): seq<seq<Json>> {
    seq(|grid|, r requires 0 <= r < |grid| => NumberRow(grid[r]).items)
  }

  function Answer(a: Option<bool>): Json {
    if a.None? then Null else Bool(a.value)
  }

  function PayloadOf(t: TurnData): Payload {
    Payload(Int(t.step), Str("thief"), Int(t.subGame), Cell(t.position), Str(DirectionName(t.move)), Str(t.intent),
            Str(t.hint), CanonicalSha256(NumberGrid(t.scent)), NumberRows(t.scent), Str(t.timestamp), Str(t.nonce),
            Str(t.config),
            None, None, Answer(t.claimResponse), Bool(false), Str(CURRENT_SCHEMA), None)
  }

  function SealTurn(t: TurnData): SealedRecord {
    Seal(PayloadOf(t))
  }

  /** A record of one's own list: the turn with the commitment published for it. */
  datatype OwnRecord = OwnRecord(turn: TurnData, commitHash: Json) {
    function Sealed(): SealedRecord {
      SealedRecord(PayloadOf(turn), commitHash)
    }
  }

  function SealedList(records: seq<OwnRecord>): (sealed: seq<SealedRecord>)
    ensures |sealed| == |records|
    ensures forall i :: 0 <= i < |records| ==> sealed[i] == records[i].Sealed()
  {
    seq(|records|, i requires 0 <= i < |records| => records[i].Sealed())
  }

  /** The commitment determines the whole honest turn. */
  lemma CommitmentDeterminesTurn(t: TurnData, u: TurnData)
    requires SealTurn(t).commitHash == SealTurn(u).commitHash
    ensures t == u
  {
    hide Canonical, NumberRows, NumberGrid, GridList, DirectionName, CellList, FieldValue;
    var p, q := PayloadOf(t), PayloadOf(u);
    assert Canonical(p) == Canonical(q);
    forall f | IsCanonical(f) ensures FieldValue(p, f) == FieldValue(q, f) {
      assert Canonical(p)[f] == Canonical(q)[f];
    }
    assert Agree(p, q);
    SamePlay(p, q);
    SameText(p, q);
    assert p.position[0] == q.position[0] && p.position[1] == q.position[1];
    DirectionNamesDiffer(t.move, u.move);
    GridsDiffer(t.scent, u.scent);
  }

  ghost predicate Agree(p: Payload, q: Payload) {
    forall f :: IsCanonical(f) ==> FieldValue(p, f) == FieldValue(q, f)
  }

  lemma SamePlay(p: Payload, q: Payload)
    requires Agree(p, q)
    ensures p.step == q.step && p.subGame == q.subGame && p.position == q.position && p.move == q.move
    ensures p.scentDigest == q.scentDigest && p.claimResponse == q.claimResponse
  {
    assert FieldValue(p, StepField) == FieldValue(q, StepField);
    assert FieldValue(p, SubGameField) == FieldValue(q, SubGameField);
    assert FieldValue(p, PositionField) == FieldValue(q, PositionField);
    assert FieldValue(p, MoveField) == FieldValue(q, MoveField);
    assert FieldValue(p, ScentDigestField) == FieldValue(q, ScentDigestField);
    assert FieldValue(p, ClaimResponseField) == FieldValue(q, ClaimResponseField);
  }

  lemma SameText(p: Payload, q: Payload)
    requires Agree(p, q)
    ensures p.intent == q.intent && p.hint == q.hint && p.timestamp == q.timestamp && p.nonce == q.nonce
    ensures p.config == q.config
  {
    assert FieldValue(p, IntentField) == FieldValue(q, IntentField);
    assert FieldValue(p, HintField) == FieldValue(q, HintField);
    assert FieldValue(p, TimestampField) == FieldValue(q, TimestampField);
    assert FieldValue(p, NonceField) == FieldValue(q, NonceField);
    assert FieldValue(p, ConfigField) == FieldValue(q, ConfigField);
  }

  lemma DirectionNamesDiffer(d: Direction, e: Direction)
    requires DirectionName(d) == DirectionName(e)
    ensures d == e
  {
    assert DirectionName(d)[0] == DirectionName(e)[0];
  }

  lemma GridsDiffer(g: Grid, h: Grid)
    requires NumberGrid(g) == NumberGrid(h)
    ensures g == h
  {
    assert |g| == |NumberGrid(g).items| == |h|;
    forall r | 0 <= r < |g| ensures g[r] == h[r] {
      assert NumberGrid(g).items[r] == NumberGrid(h).items[r];
      assert NumberRow(g[r]) == NumberRow(h[r]);
      assert |g[r]| == |NumberRow(g[r]).items| == |h[r]|;
      forall c | 0 <= c < |g[r]| ensures g[r][c] == h[r][c] {
        assert NumberRow(g[r]).items[c] == NumberRow(h[r]).items[c];
      }
    }
  }

  /** The reveal carries every sealed field, with its sealed value, except nonce and intent. */
  lemma RevealHidesOnlyNonceAndIntent(t: TurnData, f: Field)
    ensures f in PublicReveal(PayloadOf(t)) <==> IsCanonical(f) && f != NonceField && f != IntentField
    ensures f in PublicReveal(PayloadOf(t)) ==> PublicReveal(PayloadOf(t))[f] == Canonical(PayloadOf(t))[f]
  {
    hide FieldValue, CommonKeys, NumberGrid, NumberRows;
    assert !IsLegacy(PayloadOf(t));
  }

  // ----- Audit -----

  datatype Verdict = Verified | TamperForfeit

  /** Python equality of two JSON scalars: numbers and booleans compare by value. */
  function Comparable(j: Json): Json {
    match j
    case Bool(b) => Num(if b then 1.0 else 0.0)
    case Int(i) => Num(i as real)
    case _ => j
  }

  predicate HashesMatch(records: seq<SealedRecord>) {
    forall i :: 0 <= i < |records| ==> CommitHash(records[i].payload) == records[i].commitHash
  }

  predicate NoncesDistinct(records: seq<SealedRecord>) {
    forall i, j :: 0 <= i < j < |records| ==>
      Comparable(records[i].payload.nonce) != Comparable(records[j].payload.nonce)
  }

  /** The steps of the records whose payload does not hash to their commitment, in order. */
  function MismatchedSteps(records: seq<SealedRecord>): (steps: seq<Json>)
    ensures steps == [] <==> HashesMatch(records)
    ensures forall j :: j in steps ==> exists i :: 0 <= i < |records| && records[i].payload.step == j
  {
    if records == [] then []
    else
      var n := |records| - 1;
      var front := MismatchedSteps(records[..n]);
      assert forall i :: 0 <= i < n ==> records[..n][i] == records[i];
      if CommitHash(records[n].payload) == records[n].commitHash then front else front + [records[n].payload.step]
  }

  /** The nonces that occurred before, in the order of their repetition. */
  function ReusedNonces(records: seq<SealedRecord>): (nonces: seq<Json>)
    ensures nonces == [] <==> NoncesDistinct(records)
  {
    if records == [] then []
    else
      var n := |records| - 1;
      var front, nonce := ReusedNonces(records[..n]), records[n].payload.nonce;
      assert forall i :: 0 <= i < n ==> records[..n][i] == records[i];
      if UsedBefore(records, n) then front + [nonce] else front
  }

  /** The nonce of record `n` equals that of an earlier record. */
  predicate UsedBefore(records: seq<SealedRecord>, n: nat)
    requires n < |records|
  {
    exists k :: 0 <= k < n && Comparable(records[k].payload.nonce) == Comparable(records[n].payload.nonce)
  }

  lemma MismatchStep(records: seq<SealedRecord>, i: nat)
    requires i < |records|
    ensures MismatchedSteps(records[..i + 1])
         == MismatchedSteps(records[..i])
            + if CommitHash(records[i].payload) == records[i].commitHash then [] else [records[i].payload.step]
  {
    hide CommitHash, HashesMatch;
    var longer := records[..i + 1];
    assert longer[..i] == records[..i] && longer[i] == records[i];
  }

  /** Two passes: recompute every commitment, then look for a repeated nonce. */
  method AuditSealedRecords(records: seq<SealedRecord>)
    returns (verdict: Verdict, mismatched: seq<Json>, reused: seq<Json>)
    ensures verdict.Verified? <==> HashesMatch(records) && NoncesDistinct(records)
    ensures mismatched == MismatchedSteps(records) && reused == ReusedNonces(records)
  {
    hide CommitHash, HashesMatch, NoncesDistinct, MismatchedSteps, ReusedNonces;
    mismatched := [];
    assert records[..0] == [] && MismatchedSteps([]) == [] by { NothingMismatched(); }
    for i := 0 to |records|
      invariant mismatched == MismatchedSteps(records[..i])
    {
      MismatchStep(records, i);
      if CommitHash(records[i].payload) != records[i].commitHash {
        mismatched := mismatched + [records[i].payload.step];
      }
    }
    assert records[..|records|] == records;
    reused := FindReused(records);
    verdict := if mismatched != [] || reused != [] then TamperForfeit else Verified;
  }

  lemma NothingMismatched()
    ensures MismatchedSteps([]) == []
  {
  }

  lemma ReusedStep(records: seq<SealedRecord>, i: nat)
    requires i < |records|
    ensures ReusedNonces(records[..i + 1])
         == ReusedNonces(records[..i]) + if UsedBefore(records, i) then [records[i].payload.nonce] else []
  {
    hide Comparable, NoncesDistinct;
    var longer := records[..i + 1];
    assert longer[..i] == records[..i] && longer[i] == records[i];
    assert UsedBefore(longer, i) <==> UsedBefore(records, i);
  }

  method FindReused(records: seq<SealedRecord>) returns (reused: seq<Json>)
    ensures reused == ReusedNonces(records)
  {
    hide Comparable, NoncesDistinct, ReusedNonces;
    var seen: set<Json> := {};
    reused := [];
    assert records[..0] == [] && ReusedNonces([]) == [] by { NothingReused(); }
    for i := 0 to |records|
      invariant forall c :: c in seen <==> exists k :: 0 <= k < i && c == Comparable(records[k].payload.nonce)
      invariant reused == ReusedNonces(records[..i])
    {
      ReusedStep(records, i);
      var nonce := records[i].payload.nonce;
      if Comparable(nonce) in seen {
        reused := reused + [nonce];
      }
      seen := seen + {Comparable(nonce)};
    }
    assert records[..|records|] == records;
  }

  lemma NothingReused()
    ensures ReusedNonces([]) == []
  {
  }
}
