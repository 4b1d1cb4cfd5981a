/** Rebuilding sealed records from the steps of a log and checking one log
    (services/replay_checks.py). */
module ReplayChecks {
  import opened Options
  import opened Json
  import opened Sealing

  /** Iterating a digest or an object yields strings (its characters, its keys); which ones is kept
      abstract. */
  type Unroll = Json -> seq<string>

  function Strings(texts: seq<string>): (items: seq<Json>)
    ensures |items| == |texts| && forall i :: 0 <= i < |items| ==> items[i] == Str(texts[i])
  {
    seq(|texts|, i requires 0 <= i < |texts| => Str(texts[i]))
  }

  function Characters(text: string): (items: seq<Json>)
    ensures |items| == |text| && forall i :: 0 <= i < |items| ==> items[i] == Str([text[i]])
  {
    seq(|text|, i requires 0 <= i < |text| => Str([text[i]]))
  }

  /** `tuple(j)`; None where it raises. */
  function TupleOf(u: Unroll, j: Json): Option<seq<Json>> {
    match j
    case Arr(items) => Some(items)
    case Str(text) => Some(Characters(text))
    case Hex(_) => Some(Strings(u(j)))
    case Obj(_) => Some(Strings(u(j)))
    case _ => None
  }

  /** `tuple(cell) if cell else None`. */
  function OptionalCell(u: Unroll, j: Json): Option<Option<seq<Json>>> {
    if !Truthy(j) then Some(None)
    else match TupleOf(u, j)
      case None => None
      case Some(items) => Some(Some(items))
  }

  function RowsOf(u: Unroll, rows: seq<Json>): (r: Option<seq<seq<Json>>>)
    ensures r.Some? <==> forall i :: 0 <= i < |rows| ==> TupleOf(u, rows[i]).Some?
    ensures r.Some? ==> |r.value| == |rows| && forall i :: 0 <= i < |rows| ==> Some(r.value[i]) == TupleOf(u, rows[i])
  {
    if rows == [] then Some([])
    else
      var n := |rows| - 1;
      var front, last := RowsOf(u, rows[..n]), TupleOf(u, rows[n]);
      if front.None? || last.None? then
        assert front.None? ==> exists i :: 0 <= i < n && TupleOf(u, rows[..n][i]).None?;
        assert forall i :: 0 <= i < n ==> rows[..n][i] == rows[i];
        None
      else
        Some(front.value + [last.value])
  }

  /** `tuple(tuple(row) for row in grid)`. */
  function GridOf(u: Unroll, j: Json): Option<seq<seq<Json>>> {
    var rows := TupleOf(u, j);
    if rows.None? then None else RowsOf(u, rows.value)
  }

  // ----- The position inside a legacy state text -----

  predicate IsDigit(c: char) {
    '0' <= c <= '9'
  }

  /** The digits from `i` on, and the value they extend `acc` to. */
  function Digits(text: string, i: nat, acc: nat): (r: (nat, nat))
    requires i <= |text|
    ensures i <= r.1 <= |text|
    decreases |text| - i
  {
    if i < |text| && IsDigit(text[i]) then Digits(text, i + 1, 10 * acc + (text[i] - '0') as int) else (acc, i)
  }

  /** `-?\d+` at `i`: the number and where it ends. */
  function Signed(text: string, i: nat): (r: Option<(int, nat)>)
    requires i <= |text|
    ensures r.Some? ==> i < r.value.1 <= |text|
  {
    var negative := i < |text| && text[i] == '-';
    var start := if negative then i + 1 else i;
    var digits := Digits(text, start, 0);
    var value: int := digits.0;
    if digits.1 == start then None else Some((if negative then -value else value, digits.1))
  }

  const POS := "pos="

  /** `pos=(-?\d+),(-?\d+)` at `i`. */
  function MatchAt(text: string, i: nat): Option<(int, int)>
    requires i <= |text|
  {
    if !(POS <= text[i..]) then None
    else
      var row := Signed(text, i + 4);
      if row.None? || row.value.1 == |text| || text[row.value.1] != ',' then None
      else
        var col := Signed(text, row.value.1 + 1);
        if col.None? then None else Some((row.value.0, col.value.0))
  }

  /** The first match from `i` on. */
  function Search(text: string, i: nat): Option<(int, int)>
    requires i <= |text|
    decreases |text| - i
  {
    var here := MatchAt(text, i);
    if here.Some? || i == |text| then here else Search(text, i + 1)
  }

  /** The cell of a legacy record; None where the search raises. A digest has no match. */
  function LegacyPosition(state: Json): Option<seq<Json>> {
    match state
    case Str(text) =>
      var found := Search(text, 0);
      Some(if found.Some? then [Int(found.value.0), Int(found.value.1)] else [Int(0), Int(0)])
    case Hex(_) => Some([Int(0), Int(0)])
    case _ => None
  }

  // The texts that the legacy schemas wrote are read back exactly.

  predicate AllDigits(text: string) {
    forall i :: 0 <= i < |text| ==> IsDigit(text[i])
  }

  function DigitOf(c: char): nat
    requires IsDigit(c)
  {
    (c - '0') as int
  }

  /** The number `acc` extended by the digits of `text`. */
  function Value(text: string, acc: nat): nat
    requires AllDigits(text)
  {
    if text == "" then acc else Value(text[1..], 10 * acc + DigitOf(text[0]))
  }

  lemma {:induction false} ValueSnoc(text: string, c: char, acc: nat)
    requires AllDigits(text) && IsDigit(c)
    ensures AllDigits(text + [c]) && Value(text + [c], acc) == 10 * Value(text, acc) + DigitOf(c)
    decreases |text|
  {
    if text == "" {
      assert [c][1..] == "";
      assert text + [c] == [c];
    } else {
      assert (text + [c])[1..] == text[1..] + [c];
      ValueSnoc(text[1..], c, 10 * acc + DigitOf(text[0]));
    }
  }

  function Digit(n: nat): char
    requires n < 10
  {
    '0' + n as char
  }

  /** Decimal notation. */
  function Decimal(n: nat): (text: string)
    ensures text != "" && AllDigits(text)
  {
    if n < 10 then [Digit(n)] else Decimal(n / 10) + [Digit(n % 10)]
  }

  lemma {:induction false} DecimalValue(n: nat)
    ensures Value(Decimal(n), 0) == n
  {
    if n < 10 {
      assert [Digit(n)][1..] == "";
    } else {
      DecimalValue(n / 10);
      ValueSnoc(Decimal(n / 10), Digit(n % 10), 0);
    }
  }

  lemma {:induction false} DigitsRead(before: string, digits: string, after: string, acc: nat)
    requires AllDigits(digits) && (after == "" || !IsDigit(after[0]))
    ensures Digits(before + digits + after, |before|, acc) == (Value(digits, acc), |before| + |digits|)
    decreases |digits|
  {
    var text := before + digits + after;
    if digits != "" {
      var next := before + [digits[0]];
      assert next + digits[1..] + after == text;
      assert text[|before|] == digits[0];
      DigitsRead(next, digits[1..], after, 10 * acc + DigitOf(digits[0]));
    } else {
      assert text == before + after;
    }
  }

  function Signum(i: int): string {
    if i < 0 then "-" else ""
  }

  function Magnitude(i: int): nat {
    if i < 0 then -i else i
  }

  function Text(i: int): string {
    Signum(i) + Decimal(Magnitude(i))
  }

  lemma SignedRead(before: string, i: int, after: string)
    requires after == "" || !IsDigit(after[0])
    ensures Signed(before + Text(i) + after, |before|) == Some((i, |before| + |Text(i)|))
  {
    var text := before + Text(i) + after;
    assert text == (before + Signum(i)) + Decimal(Magnitude(i)) + after;
    assert text[|before|] == Text(i)[0];
    DecimalValue(Magnitude(i));
    DigitsRead(before + Signum(i), Decimal(Magnitude(i)), after, 0);
  }

  /** Whatever follows the cell, as long as it does not go on with a digit. */
  lemma LegacyTextIsRead(row: int, col: int, rest: string)
    requires rest == "" || !IsDigit(rest[0])
    ensures LegacyPosition(Str(POS + Text(row) + "," + Text(col) + rest)) == Some([Int(row), Int(col)])
  {
    hide Signed, Text;
    var text := POS + Text(row) + "," + Text(col) + rest;
    var tail := "," + Text(col) + rest;
    assert text == POS + Text(row) + tail;
    SignedRead(POS, row, tail);
    var head := POS + Text(row) + ",";
    assert text == head + Text(col) + rest;
    SignedRead(head, col, rest);
    assert text[|POS| + |Text(row)|] == ',';
    assert POS <= text[0..];
  }

  // ----- Rebuilding -----

  const REQUIRED: seq<Field> := [
    StepField, RoleField, SubGameField, MoveField, IntentField, HintField, ScentDigestField, TimestampField,
    NonceField, ConfigField]

  function PositionOf(u: Unroll, d: Dict): Option<seq<Json>> {
    if PositionField in d then TupleOf(u, d[PositionField]) else LegacyPosition(Get(d, StateField, Str("")))
  }

  function ScentOf(u: Unroll, d: Dict): Option<seq<seq<Json>>> {
    if ScentGridField in d then GridOf(u, d[ScentGridField]) else Some([])
  }

  predicate Rebuildable(u: Unroll, d: Dict) {
    && (forall f :: f in REQUIRED ==> f in d)
    && PositionOf(u, d).Some? && ScentOf(u, d).Some?
    && OptionalCell(u, Get(d, BarrierField, Null)).Some? && OptionalCell(u, Get(d, ClaimField, Null)).Some?
  }

  lemma RequiredKeys(u: Unroll, d: Dict)
    requires Rebuildable(u, d)
    ensures StepField in d && RoleField in d && SubGameField in d && MoveField in d && IntentField in d
    ensures HintField in d
    ensures ScentDigestField in d && TimestampField in d && NonceField in d && ConfigField in d
  {
    assert REQUIRED[0] in d && REQUIRED[1] in d && REQUIRED[2] in d && REQUIRED[3] in d && REQUIRED[4] in d;
    assert REQUIRED[5] in d && REQUIRED[6] in d && REQUIRED[7] in d && REQUIRED[8] in d && REQUIRED[9] in d;
  }

  /** `payload_from_step`, where it does not raise. */
  function Rebuild(u: Unroll, d: Dict): Payload
    requires Rebuildable(u, d)
  {
    RequiredKeys(u, d);
    Payload(d[StepField], d[RoleField], d[SubGameField], PositionOf(u, d).value, d[MoveField], d[IntentField],
            d[HintField], d[ScentDigestField], ScentOf(u, d).value, d[TimestampField], d[NonceField], d[ConfigField],
            OptionalCell(u, Get(d, BarrierField, Null)).value, OptionalCell(u, Get(d, ClaimField, Null)).value,
            Get(d, ClaimResponseField, Null), Get(d, WinClaimField, Bool(false)),
            Get(d, SchemaField, Str("sealed-turn/1")),
            if PositionField in d then None else Some(Get(d, StateField, Str(""))))
  }

  /** The step a log writes for a record. */
  function LogStep(r: SealedRecord): (d: Dict)
    ensures forall f :: f in d <==> f.CommitHashField? || IsKeyOf(r.payload, f)
    ensures d[CommitHashField] == r.commitHash
    ensures forall f :: f in d && !f.CommitHashField? ==> d[f] == FieldValue(r.payload, f)
  {
    Canonical(r.payload)[CommitHashField := r.commitHash]
  }

  /** Payloads in the form the program builds them: no empty cells, and a legacy record carries the
      state text its position was read from, any other none. */
  predicate Normal(p: Payload) {
    && p.barrier != Some([]) && p.claim != Some([])
    && if IsLegacy(p) then p.legacyState.Some? && LegacyPosition(p.legacyState.value) == Some(p.position)
       else p.legacyState.None?
  }

  lemma GridRoundTrip(u: Unroll, grid: seq<seq<Json>>)
    ensures GridOf(u, GridList(grid)) == Some(grid)
  {
    var rows := GridList(grid).items;
    assert forall i :: 0 <= i < |rows| ==> TupleOf(u, rows[i]) == Some(grid[i]);
    assert RowsOf(u, rows).value == grid;
  }

  lemma CellRoundTrip(u: Unroll, cell: Option<seq<Json>>)
    requires cell != Some([])
    ensures OptionalCell(u, CellList(cell)) == Some(cell)
  {
  }

  /** A written step holds every common field with its sealed value. */
  lemma WrittenValue(r: SealedRecord, f: Field, default: Json)
    requires IsCanonical(f) && !f.PositionField?
    ensures f in LogStep(r) && LogStep(r)[f] == FieldValue(r.payload, f) == Get(LogStep(r), f, default)
  {
    hide FieldValue;
  }

  lemma WrittenPosition(u: Unroll, r: SealedRecord)
    requires Normal(r.payload)
    ensures PositionOf(u, LogStep(r)) == Some(r.payload.position)
    ensures var d := LogStep(r);
            (if PositionField in d then None else Some(Get(d, StateField, Str("")))) == r.payload.legacyState
  {
    hide LegacyPosition, FieldValue, Canonical;
    assert FieldValue(r.payload, PositionField) == Arr(r.payload.position) by { PositionValue(r.payload); }
    assert FieldValue(r.payload, StateField) == LegacyState(r.payload) by { PositionValue(r.payload); }
  }

  lemma PositionValue(p: Payload)
    ensures FieldValue(p, PositionField) == Arr(p.position) && FieldValue(p, StateField) == LegacyState(p)
  {
  }

  lemma WrittenParts(u: Unroll, r: SealedRecord)
    requires Normal(r.payload)
    ensures ScentOf(u, LogStep(r)) == Some(r.payload.scentGrid)
    ensures OptionalCell(u, Get(LogStep(r), BarrierField, Null)) == Some(r.payload.barrier)
    ensures OptionalCell(u, Get(LogStep(r), ClaimField, Null)) == Some(r.payload.claim)
  {
    hide LogStep, GridOf, GridList, OptionalCell, CellList;
    WrittenValue(r, ScentGridField, Null);
    WrittenValue(r, BarrierField, Null);
    WrittenValue(r, ClaimField, Null);
    GridRoundTrip(u, r.payload.scentGrid);
    CellRoundTrip(u, r.payload.barrier);
    CellRoundTrip(u, r.payload.claim);
  }

  /** `d` holds every common field of `p`. */
  ghost predicate Holds(d: Dict, p: Payload) {
    forall f :: IsCanonical(f) && !f.PositionField? ==> f in d && d[f] == FieldValue(p, f)
  }

  /** The values under the keys, field by field. */
  lemma PlayValues(p: Payload)
    ensures FieldValue(p, StepField) == p.step && FieldValue(p, RoleField) == p.role
    ensures FieldValue(p, SubGameField) == p.subGame
    ensures FieldValue(p, MoveField) == p.move
  {
  }

  lemma TextValues(p: Payload)
    ensures FieldValue(p, IntentField) == p.intent && FieldValue(p, HintField) == p.hint
    ensures FieldValue(p, ScentDigestField) == p.scentDigest && FieldValue(p, TimestampField) == p.timestamp
  {
  }

  lemma SealValues(p: Payload)
    ensures FieldValue(p, NonceField) == p.nonce && FieldValue(p, ConfigField) == p.config
  {
  }

  lemma OptionalValues(p: Payload)
    ensures FieldValue(p, ClaimResponseField) == p.claimResponse && FieldValue(p, WinClaimField) == p.winClaim
    ensures FieldValue(p, SchemaField) == p.schema
  {
  }

  lemma HeldRequired(d: Dict, p: Payload)
    requires Holds(d, p)
    ensures forall f :: f in REQUIRED ==> f in d
    ensures StepField in d && d[StepField] == p.step && RoleField in d && d[RoleField] == p.role
    ensures SubGameField in d && d[SubGameField] == p.subGame && MoveField in d && d[MoveField] == p.move
    ensures IntentField in d && d[IntentField] == p.intent && HintField in d && d[HintField] == p.hint
    ensures ScentDigestField in d && d[ScentDigestField] == p.scentDigest
    ensures TimestampField in d && d[TimestampField] == p.timestamp
    ensures NonceField in d && d[NonceField] == p.nonce && ConfigField in d && d[ConfigField] == p.config
  {
    hide FieldValue;
    PlayValues(p);
    TextValues(p);
    SealValues(p);
  }

  lemma HeldOptional(d: Dict, p: Payload)
    requires Holds(d, p)
    ensures Get(d, ClaimResponseField, Null) == p.claimResponse && Get(d, WinClaimField, Bool(false)) == p.winClaim
    ensures Get(d, SchemaField, Str("sealed-turn/1")) == p.schema
  {
    hide FieldValue;
    OptionalValues(p);
  }

  lemma WrittenHolds(r: SealedRecord)
    ensures Holds(LogStep(r), r.payload)
  {
    hide FieldValue;
  }

  /** What is written is what is read back, under the current and the legacy schemas. */
  lemma WrittenStepsRoundTrip(u: Unroll, r: SealedRecord)
    requires Normal(r.payload)
    ensures Rebuildable(u, LogStep(r)) && Rebuild(u, LogStep(r)) == r.payload
  {
    hide LogStep, PositionOf, ScentOf, OptionalCell, Get, REQUIRED, Normal, Holds, IsKeyOf, FieldValue;
    WrittenHolds(r);
    HeldRequired(LogStep(r), r.payload);
    HeldOptional(LogStep(r), r.payload);
    WrittenPosition(u, r);
    WrittenParts(u, r);
  }

  // ----- Checking one log -----

  datatype Finding =
    | AuditFailed(mismatched: seq<Json>, reused: seq<Json>)
    | StepsOutOfOrder
    | OutOfBounds(step: nat, field: Field)
    | WrongRole(step: nat, field: Field)
    | UnknownFields(step: nat)

  /** A list of findings, or an exception. */
  datatype Report<T> = Findings(list: seq<T>) | Crashed

  /** `0 <= j < n`; None where the comparison raises. NaN and the infinities are out of range. */
  function InRange(j: Json, n: int): Option<bool> {
    match j
    case Int(i) => Some(0 <= i < n)
    case Num(r) => Some(0.0 <= r < n as real)
    case Bool(b) => Some((if b then 1 else 0) < n)
    case NonFinite => Some(false)
    case _ => None
  }

  /** The bounds check of a cell, in the order in which its parts are read. */
  function CellInBounds(cell: Json, n: int): Option<bool> {
    match cell
    case Null => Some(true)
    case Arr(items) =>
      if items == [] then None
      else
        var row := InRange(items[0], n);
        if row != Some(true) then row else if |items| == 1 then None else InRange(items[1], n)
    case _ => None
  }

  /** What the constant-time comparison accepts: a digest or any ASCII text. */
  predicate IsDigest(j: Json) {
    j.Hex? || (j.Str? && forall i :: 0 <= i < |j.s| ==> j.s[i] < 128 as char)
  }

  /** No check of this step raises. */
  predicate Readable(u: Unroll, d: Dict, n: int) {
    && Rebuildable(u, d)
    && CommitHashField in d && IsDigest(d[CommitHashField])
    && (IsLegacy(Rebuild(u, d)) ==> |Rebuild(u, d).position| == 2)
    && Hashable(Rebuild(u, d).nonce)
    && CellInBounds(Get(d, BarrierField, Null), n).Some?
    && CellInBounds(Get(d, ClaimField, Null), n).Some?
  }

  /** A field of one role is never set on the other. */
  predicate RoleAllows(d: Dict, f: Field) {
    match f
    case BarrierField => Get(d, RoleField, Null) == Str("thief") ==> Get(d, f, Null).Null?
    case ClaimField => Get(d, RoleField, Null) == Str("thief") ==> Get(d, f, Null).Null?
    case ClaimResponseField => Get(d, RoleField, Null) == Str("police") ==> Get(d, f, Null).Null?
    case WinClaimField => Get(d, RoleField, Null) == Str("police") ==> !Truthy(Get(d, f, Null))
    case _ => true
  }

  /** A current-schema step has no other keys than the sealed ones and the commitment. */
  predicate OnlyKnownFields(d: Dict) {
    Get(d, SchemaField, Null) == Str(CURRENT_SCHEMA) ==> forall f :: f in d ==> IsCanonical(f) || f.CommitHashField?
  }

  predicate StepSound(d: Dict, n: int) {
    && CellInBounds(Get(d, BarrierField, Null), n) == Some(true)
    && CellInBounds(Get(d, ClaimField, Null), n) == Some(true)
    && RoleAllows(d, BarrierField) && RoleAllows(d, ClaimField)
    && RoleAllows(d, ClaimResponseField) && RoleAllows(d, WinClaimField)
    && OnlyKnownFields(d)
  }

  /** A number from 0 up to, not including, `n`. */
  predicate IsCoordinate(j: Json, n: int) {
    match j
    case Int(i) => 0 <= i < n
    case Num(r) => 0.0 <= r < n as real
    case Bool(b) => n > 1 || (n == 1 && !b)
    case _ => false
  }

  /** Nothing, or a list that starts with the coordinates of a cell of the board. */
  predicate HoldsBoardCell(d: Dict, f: Field, n: int) {
    || Silent(d, f)
    || (&& f in d && d[f].Arr? && |d[f].items| >= 2
        && IsCoordinate(d[f].items[0], n) && IsCoordinate(d[f].items[1], n))
  }

  predicate HoldsText(d: Dict, f: Field, text: string) {
    f in d && d[f] == Str(text)
  }

  /** What a sound step is, by its keys: both cells on the board, if there are any; no cell on a thief's
      step; no answer and no claim of victory on a police step; and under the current schema no key
      that the schema does not have. */
  lemma SoundStepIsExact(d: Dict, n: int)
    ensures StepSound(d, n) <==>
              && HoldsBoardCell(d, BarrierField, n) && HoldsBoardCell(d, ClaimField, n)
              && (HoldsText(d, RoleField, "thief") ==> Silent(d, BarrierField) && Silent(d, ClaimField))
              && (HoldsText(d, RoleField, "police") ==>
                    Silent(d, ClaimResponseField) && (WinClaimField in d ==> !Truthy(d[WinClaimField])))
              && (HoldsText(d, SchemaField, "commitment/1") ==>
                    forall f :: f in d ==> !f.StateField? && !f.OtherField?)
  {
    hide CellInBounds, HoldsBoardCell, Truthy;
    BoardCellIsExact(d, BarrierField, n);
    BoardCellIsExact(d, ClaimField, n);
    assert !Truthy(Null) by { NullIsFalse(); }
  }

  lemma NullIsFalse()
    ensures !Truthy(Null)
  {
  }

  lemma BoardCellIsExact(d: Dict, f: Field, n: int)
    ensures CellInBounds(Get(d, f, Null), n) == Some(true) <==> HoldsBoardCell(d, f, n)
  {
  }

  predicate IsNumber(j: Json) {
    j.Int? || j.Num? || j.Bool? || j.NonFinite?
  }

  predicate IsText(j: Json) {
    j.Str? || j.Hex?
  }

  /** `sorted(set(values))` does not raise: all can be hashed, and they are all numbers, or all texts,
      or all the same. */
  predicate Sortable(values: seq<Json>) {
    && (forall i :: 0 <= i < |values| ==> Hashable(values[i]))
    && (|| (forall i :: 0 <= i < |values| ==> IsNumber(values[i]))
        || (forall i :: 0 <= i < |values| ==> IsText(values[i]))
        || (forall i :: 0 <= i < |values| ==> values[i] == values[0]))
  }

  predicate AllReadable(u: Unroll, steps: seq<Dict>, n: int) {
    forall i :: 0 <= i < |steps| ==> Readable(u, steps[i], n)
  }

  function RecordOfStep(u: Unroll, d: Dict): SealedRecord
    requires Rebuildable(u, d) && CommitHashField in d
  {
    SealedRecord(Rebuild(u, d), d[CommitHashField])
  }

  function RecordsOf(u: Unroll, steps: seq<Dict>, n: int): (records: seq<SealedRecord>)
    requires AllReadable(u, steps, n)
    ensures |records| == |steps|
    ensures forall i :: 0 <= i < |steps| ==> records[i] == RecordOfStep(u, steps[i])
  {
    seq(|steps|, i requires 0 <= i < |steps| => RecordOfStep(u, steps[i]))
  }

  /** Checking the log raises nowhere: neither in reading a step nor in sorting the steps of the
      mismatched commitments for the report. */
  predicate LogCheckable(u: Unroll, steps: seq<Dict>, n: int) {
    AllReadable(u, steps, n) && Sortable(MismatchedSteps(RecordsOf(u, steps, n)))
  }

  /** `steps_in_order`: 0, 1, 2, ... under Python equality. */
  predicate StepsInOrder(records: seq<SealedRecord>) {
    forall i :: 0 <= i < |records| ==> Comparable(records[i].payload.step) == Num(i as real)
  }

  /** What an accepted log is: every step readable and sound, every commitment the hash of its
      payload, no nonce repeated, steps numbered from zero. */
  predicate LogAccepted(u: Unroll, steps: seq<Dict>, n: int) {
    && AllReadable(u, steps, n)
    && (forall i :: 0 <= i < |steps| ==> StepSound(steps[i], n))
    && HashesMatch(RecordsOf(u, steps, n)) && NoncesDistinct(RecordsOf(u, steps, n))
    && StepsInOrder(RecordsOf(u, steps, n))
  }

  method RebuildRecords(u: Unroll, steps: seq<Dict>) returns (records: seq<SealedRecord>, ok: bool)
    ensures ok <==> forall i :: 0 <= i < |steps| ==> Rebuildable(u, steps[i]) && CommitHashField in steps[i]
    ensures ok ==> |records| == |steps| && forall i :: 0 <= i < |steps| ==> records[i] == RecordOfStep(u, steps[i])
  {
    hide Rebuildable, Rebuild;
    records, ok := [], true;
    for i := 0 to |steps|
      invariant |records| == i
      invariant forall k :: 0 <= k < i ==>
                  Rebuildable(u, steps[k]) && CommitHashField in steps[k] && records[k] == RecordOfStep(u, steps[k])
    {
      if !Rebuildable(u, steps[i]) || CommitHashField !in steps[i] {
        return records, false;
      }
      records := records + [RecordOfStep(u, steps[i])];
    }
  }

  /** The order check compares the whole list of step numbers. */
  method CheckOrder(records: seq<SealedRecord>) returns (ordered: bool)
    ensures ordered <==> StepsInOrder(records)
  {
    for i := 0 to |records|
      invariant StepsInOrder(records[..i])
    {
      if Comparable(records[i].payload.step) != Num(i as real) {
        return false;
      }
    }
    ordered := true;
  }

  /** The bounds, role and field checks of one step. */
  method CheckStep(d: Dict, i: nat, n: int) returns (r: Report<Finding>)
    ensures r.Crashed? <==>
              CellInBounds(Get(d, BarrierField, Null), n).None? || CellInBounds(Get(d, ClaimField, Null), n).None?
    ensures r == Findings([]) <==> StepSound(d, n)
  {
    hide CellInBounds, Get;
    var list: seq<Finding> := [];
    var barrier := CellInBounds(Get(d, BarrierField, Null), n);
    if barrier.None? {
      return Crashed;
    }
    if !barrier.value {
      list := list + [OutOfBounds(i, BarrierField)];
    }
    var claim := CellInBounds(Get(d, ClaimField, Null), n);
    if claim.None? {
      return Crashed;
    }
    if !claim.value {
      list := list + [OutOfBounds(i, ClaimField)];
    }
    var roleFields := [BarrierField, ClaimField, ClaimResponseField, WinClaimField];
    ghost var before := list;
    for k := 0 to |roleFields|
      invariant list == [] <==> before == [] && forall j :: 0 <= j < k ==> RoleAllows(d, roleFields[j])
    {
      if !RoleAllows(d, roleFields[k]) {
        list := list + [WrongRole(i, roleFields[k])];
      }
    }
    assert (forall j :: 0 <= j < 4 ==> RoleAllows(d, roleFields[j])) ==>
        && RoleAllows(d, roleFields[0]) && RoleAllows(d, roleFields[1])
        && RoleAllows(d, roleFields[2]) && RoleAllows(d, roleFields[3]);
    if !OnlyKnownFields(d) {
      list := list + [UnknownFields(i)];
    }
    r := Findings(list);
  }

  /** `verify_log`: it raises exactly when the log cannot be checked, and otherwise is silent exactly
      on the logs that are as they should be. */
  method VerifyLog(u: Unroll, steps: seq<Dict>, n: int) returns (r: Report<Finding>)
    ensures r.Crashed? <==> !LogCheckable(u, steps, n)
    ensures r == Findings([]) <==> LogAccepted(u, steps, n)
  {
    hide Rebuildable, Rebuild, CellInBounds, Get, HashesMatch, NoncesDistinct, StepsInOrder, StepSound, Sortable,
      MismatchedSteps, ReusedNonces;
    var records, ok := RebuildRecords(u, steps);
    if !ok {
      return Crashed;
    }
    for i := 0 to |records|
      invariant forall k :: 0 <= k < i ==> Auditable(records[k])
    {
      if !Auditable(records[i]) {
        assert !Readable(u, steps[i], n);
        return Crashed;
      }
    }
    var verdict, mismatched, reused := AuditSealedRecords(records);
    assert AllReadable(u, steps, n) ==> records == RecordsOf(u, steps, n);
    if !Sortable(mismatched) {
      AcceptedIsCheckable(u, steps, n);
      return Crashed;
    }
    var list := if verdict.Verified? then [] else [AuditFailed(mismatched, reused)];
    var ordered := CheckOrder(records);
    if !ordered {
      list := list + [StepsOutOfOrder];
    }
    ghost var before := list;
    for i := 0 to |steps|
      invariant forall k :: 0 <= k < i ==> Readable(u, steps[k], n)
      invariant list == [] <==> before == [] && forall k :: 0 <= k < i ==> StepSound(steps[k], n)
    {
      var found := CheckStep(steps[i], i, n);
      if found.Crashed? {
        assert !Readable(u, steps[i], n);
        return Crashed;
      }
      list := list + found.list;
    }
    r := Findings(list);
  }

  /** An accepted log can be checked. */
  lemma AcceptedIsCheckable(u: Unroll, steps: seq<Dict>, n: int)
    ensures LogAccepted(u, steps, n) ==> LogCheckable(u, steps, n)
  {
    hide Readable, StepSound, NoncesDistinct, StepsInOrder, HashesMatch;
  }

  /** No part of the audit of this record raises. */
  predicate Auditable(r: SealedRecord) {
    && IsDigest(r.commitHash)
    && (IsLegacy(r.payload) ==> |r.payload.position| == 2)
    && Hashable(r.payload.nonce)
  }
}
