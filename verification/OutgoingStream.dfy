/** What the turns of a run put on the wire (services/turn_messages.py), seen by the receiver that
    orders it and by the auditor that opens it. */
module OutgoingStream {
  import opened Options
  import opened Geometry
  import opened Grids
  import opened Json
  import opened Sealing
  import opened Messages
  import opened Sequence
  import opened TurnEngine
  import opened SubGameRuns
  import opened ReplayChecks

  function CommitmentOf(s: Session, r: OwnRecord): Message {
    CommitmentMessage(s, r.turn.subGame, r.turn.step, r.commitHash)
  }

  function RevealOf(s: Session, r: OwnRecord): Message {
    RevealMessage(s, r.turn.subGame, r.turn.step, PublicReveal(PayloadOf(r.turn)))
  }

  /** The k-th core message of a run: commitment and reveal of each record in turn. */
  function Outgoing(s: Session, records: seq<OwnRecord>, k: nat): Message
    requires k < 2 * |records|
  {
    if k % 2 == 0 then CommitmentOf(s, records[k / 2]) else RevealOf(s, records[k / 2])
  }

  function ArrivalOf(m: Message): Arrival {
    Arrival(m.subGame, m.step, m.mtype)
  }

  function FirstArrivals(s: Session, records: seq<OwnRecord>, k: nat): (arrivals: seq<Arrival>)
    requires k <= 2 * |records|
    ensures |arrivals| == k
  {
    seq(k, i requires 0 <= i < k => ArrivalOf(Outgoing(s, records, i)))
  }

  /** The messages of any run, numbered 0, 1, 2, ... by their sequence ids, are accepted one by one
      by a receiver that has seen nothing else of the sub-game. */
  lemma {:induction false} RunsAreAcceptedInOrder(cfg: Config, number: nat, records: seq<OwnRecord>, inputs: Inputs,
                                                  s: Session, k: nat)
    requires Lawful(cfg, number, records, inputs) && k <= 2 * |records|
    ensures Sequence.Valid(CursorOf(RunTracker(map[], FirstArrivals(s, records, k)), number))
    ensures Count(CursorOf(RunTracker(map[], FirstArrivals(s, records, k)), number)) == k
    ensures k < 2 * |records| ==>
              var m, c := Outgoing(s, records, k), CursorOf(RunTracker(map[], FirstArrivals(s, records, k)), number);
              m.subGame == number && m.sequenceId == k && CheckMessage(c, m.step, m.mtype).Accepted?
    decreases k
  {
    hide LawfulRecord, Lawful, PayloadOf, CommitHash, PublicReveal, CheckMessage, Sequence.Advance, CursorOf,
      Sequence.Valid, Count;
    if k > 0 {
      var before, m := FirstArrivals(s, records, k - 1), Outgoing(s, records, k - 1);
      RunsAreAcceptedInOrder(cfg, number, records, inputs, s, k - 1);
      assert FirstArrivals(s, records, k) == before + [ArrivalOf(m)];
      TrackerTakesTheNext(before, ArrivalOf(m), number);
    } else {
      FreshCursor(number);
      assert FirstArrivals(s, records, 0) == [];
    }
    if k < 2 * |records| {
      OutgoingNumbers(cfg, number, records, inputs, s, k);
      var m := Outgoing(s, records, k);
      OnlyTheNextIsAccepted(CursorOf(RunTracker(map[], FirstArrivals(s, records, k)), number), m.step, m.mtype);
    }
  }

  lemma FreshCursor(number: int)
    ensures Sequence.Valid(CursorOf(RunTracker(map[], []), number))
    ensures Count(CursorOf(RunTracker(map[], []), number)) == 0
  {
  }

  lemma TrackerTakesTheNext(before: seq<Arrival>, a: Arrival, number: int)
    requires a.subGame == number && IsCore(a.mtype)
    requires Sequence.Valid(CursorOf(RunTracker(map[], before), number))
    requires CheckMessage(CursorOf(RunTracker(map[], before), number), a.step, a.mtype).Accepted?
    ensures Sequence.Valid(CursorOf(RunTracker(map[], before + [a]), number))
    ensures Count(CursorOf(RunTracker(map[], before + [a]), number))
         == Count(CursorOf(RunTracker(map[], before), number)) + 1
  {
    assert (before + [a])[..|before|] == before;
    OnlyTheNextIsAccepted(CursorOf(RunTracker(map[], before), number), a.step, a.mtype);
  }

  lemma OutgoingNumbers(cfg: Config, number: nat, records: seq<OwnRecord>, inputs: Inputs, s: Session, k: nat)
    requires Lawful(cfg, number, records, inputs) && k < 2 * |records|
    ensures var m := Outgoing(s, records, k);
            m.subGame == number && IsCore(m.mtype) && m.sequenceId == k == StreamIndex(m.step, m.mtype)
  {
    assert LawfulRecord(cfg, number, records, inputs, k / 2);
    assert k == 2 * (k / 2) + k % 2;
  }

  /** What the reveal of a turn shows, key by key: the turn itself under the current schema, nothing
      under the keys that only the police fill, and neither the nonce nor the intent. */
  ghost predicate Shows(d: Dict, t: TurnData) {
    ShowsKeys(d) && ShowsPlay(d, t) && ShowsText(d, t) && ShowsEvidence(d, t)
  }

  ghost predicate ShowsKeys(d: Dict) {
    forall f :: f in d <==>
      !f.NonceField? && !f.IntentField? && !f.StateField? && !f.CommitHashField? && !f.OtherField?
  }

  ghost predicate ShowsPlay(d: Dict, t: TurnData)
    requires ShowsKeys(d)
  {
    && d[StepField] == Int(t.step) && d[RoleField] == Str("thief") && d[SubGameField] == Int(t.subGame)
    && d[PositionField] == Arr([Int(t.position.row), Int(t.position.col)])
    && d[MoveField] == Str(match t.move case North => "N" case South => "S" case East => "E" case West => "W"
                                        case Stay => "STAY")
  }

  ghost predicate ShowsText(d: Dict, t: TurnData)
    requires ShowsKeys(d)
  {
    && d[HintField] == Str(t.hint) && d[TimestampField] == Str(t.timestamp)
    && d[SchemaField] == Str("commitment/1") && d[ConfigField] == Str(t.config)
  }

  ghost predicate ShowsEvidence(d: Dict, t: TurnData)
    requires ShowsKeys(d)
  {
    && IsGridOf(d[ScentGridField], t.scent) && d[ScentDigestField] == Hex(d[ScentGridField])
    && d[BarrierField] == Null && d[ClaimField] == Null && d[WinClaimField] == Bool(false)
    && (t.claimResponse == None ==> d[ClaimResponseField] == Null)
    && (t.claimResponse == Some(true) ==> d[ClaimResponseField] == Bool(true))
    && (t.claimResponse == Some(false) ==> d[ClaimResponseField] == Bool(false))
  }

  /** Nested lists with the numbers of a grid. */
  ghost predicate IsGridOf(j: Json, grid: Grid) {
    && j.Arr? && |j.items| == |grid|
    && forall r :: 0 <= r < |grid| ==>
         && j.items[r].Arr? && |j.items[r].items| == |grid[r]|
         && forall c :: 0 <= c < |grid[r]| ==> j.items[r].items[c] == Num(grid[r][c])
  }

  /** Every reveal of every own turn shows the turn, in these values. */
  lemma PublishedFields(s: Session, r: OwnRecord)
    ensures RevealOf(s, r).body.Obj? && Shows(RevealOf(s, r).body.fields, r.turn)
  {
    hide PublicReveal, PayloadOf, ShowsKeys, ShowsPlay, ShowsText, ShowsEvidence;
    PublishedValues(r.turn);
    PublishedPlay(r.turn);
    PublishedText(r.turn);
    PublishedEvidence(r.turn);
  }

  lemma PublishedValues(t: TurnData)
    ensures ShowsKeys(PublicReveal(PayloadOf(t)))
    ensures forall f :: f in PublicReveal(PayloadOf(t)) ==>
              PublicReveal(PayloadOf(t))[f] == FieldValue(PayloadOf(t), f)
  {
    hide FieldValue, PayloadOf;
    forall f
      ensures f in PublicReveal(PayloadOf(t)) <==> IsCanonical(f) && f != NonceField && f != IntentField
    {
      RevealHidesOnlyNonceAndIntent(t, f);
    }
  }

  lemma PublishedPlay(t: TurnData)
    requires ShowsKeys(PublicReveal(PayloadOf(t)))
    ensures ShowsPlay(PublicReveal(PayloadOf(t)), t)
  {
    hide PublicReveal, ShowsKeys, FieldValue, NumberRows, NumberGrid;
    PublishedValues(t);
    PlayKeys(PublicReveal(PayloadOf(t)));
    PlayValues(PayloadOf(t));
    PositionValue(PayloadOf(t));
  }

  lemma PlayKeys(d: Dict)
    requires ShowsKeys(d)
    ensures StepField in d && RoleField in d && SubGameField in d && PositionField in d && MoveField in d
    ensures HintField in d && TimestampField in d && SchemaField in d && ConfigField in d
    ensures ScentGridField in d && ScentDigestField in d && BarrierField in d && ClaimField in d
    ensures WinClaimField in d && ClaimResponseField in d
  {
  }

  lemma PublishedText(t: TurnData)
    requires ShowsKeys(PublicReveal(PayloadOf(t)))
    ensures ShowsText(PublicReveal(PayloadOf(t)), t)
  {
    hide PublicReveal, ShowsKeys, FieldValue, NumberRows, NumberGrid, DirectionName;
    PublishedValues(t);
    PlayKeys(PublicReveal(PayloadOf(t)));
    TextValues(PayloadOf(t));
    SealValues(PayloadOf(t));
    OptionalValues(PayloadOf(t));
  }

  lemma PublishedEvidence(t: TurnData)
    requires ShowsKeys(PublicReveal(PayloadOf(t)))
    ensures ShowsEvidence(PublicReveal(PayloadOf(t)), t)
  {
    hide PublicReveal, ShowsKeys, FieldValue, NumberRows, NumberGrid, GridList, IsGridOf, DirectionName;
    PublishedValues(t);
    PlayKeys(PublicReveal(PayloadOf(t)));
    PublishedGrid(t.scent);
    TextValues(PayloadOf(t));
    OptionalValues(PayloadOf(t));
    CellFields(PayloadOf(t));
  }

  lemma CellFields(p: Payload)
    ensures FieldValue(p, BarrierField) == CellList(p.barrier) && FieldValue(p, ClaimField) == CellList(p.claim)
    ensures FieldValue(p, ScentGridField) == GridList(p.scentGrid)
  {
  }

  lemma PublishedGrid(grid: Grid)
    ensures NumberGrid(grid) == GridList(NumberRows(grid)) && IsGridOf(NumberGrid(grid), grid)
  {
    var a, b := NumberGrid(grid), GridList(NumberRows(grid));
    forall r | 0 <= r < |grid| ensures a.items[r] == b.items[r] {
    }
    assert a.items == b.items;
  }

  /** A revealed payload completed with a nonce and an intent. */
  function Opened(shown: Json, nonce: string, intent: string): Json
    requires shown.Obj?
  {
    Obj(shown.fields[NonceField := Str(nonce)][IntentField := Str(intent)])
  }

  /** Commit, then reveal: completing the revealed payload with the turn's own nonce and intent
      opens the published commitment, and no other nonce, intent or revealed payload does. */
  lemma OnlyTheTruthOpens(s: Session, r: OwnRecord, shown: Json, nonce: string, intent: string)
    requires r.commitHash == CommitHash(PayloadOf(r.turn))
    requires shown.Obj? && NonceField !in shown.fields && IntentField !in shown.fields
    ensures RevealOf(s, r).body.Obj?
    ensures CanonicalSha256(Opened(shown, nonce, intent)) == CommitmentOf(s, r).body
            <==> shown == RevealOf(s, r).body && nonce == r.turn.nonce && intent == r.turn.intent
  {
    hide Canonical, PayloadOf;
    OwnSecrets(r.turn);
    CompletionIsExact(Canonical(PayloadOf(r.turn)), shown.fields, nonce, intent);
  }

  lemma CompletionIsExact(whole: Dict, shown: Dict, nonce: string, intent: string)
    requires NonceField in whole && IntentField in whole && NonceField !in shown && IntentField !in shown
    ensures shown[NonceField := Str(nonce)][IntentField := Str(intent)] == whole <==>
              && shown == whole - {NonceField, IntentField}
              && whole[NonceField] == Str(nonce) && whole[IntentField] == Str(intent)
  {
    var full := shown[NonceField := Str(nonce)][IntentField := Str(intent)];
    if full == whole {
      assert full[NonceField] == Str(nonce) && full[IntentField] == Str(intent);
      assert shown == full - {NonceField, IntentField};
    }
    if && shown == whole - {NonceField, IntentField}
       && whole[NonceField] == Str(nonce) && whole[IntentField] == Str(intent) {
      forall f ensures f in full <==> f in whole {
      }
      assert full == whole;
    }
  }

  lemma OwnSecrets(t: TurnData)
    ensures NonceField in Canonical(PayloadOf(t)) && Canonical(PayloadOf(t))[NonceField] == Str(t.nonce)
    ensures IntentField in Canonical(PayloadOf(t)) && Canonical(PayloadOf(t))[IntentField] == Str(t.intent)
  {
  }
}
