/** What an accepted log proves: honest logs are accepted, and nothing can change under a fixed
    column of commitments. */
module LogIntegrity {
  import opened Options
  import opened Geometry
  import opened Grids
  import opened Belief
  import opened Scent
  import opened Json
  import opened Sealing
  import opened TurnEngine
  import opened SubGameRuns
  import opened SubGameRuntime
  import opened ReplayChecks

  // ----- Binding -----

  ghost predicate SameCommitments(a: seq<Dict>, b: seq<Dict>) {
    |a| == |b| && forall i :: 0 <= i < |a| ==>
      CommitHashField in a[i] && CommitHashField in b[i] && a[i][CommitHashField] == b[i][CommitHashField]
  }

  lemma HashColumn(u: Unroll, steps: seq<Dict>, n: int, i: nat)
    requires LogAccepted(u, steps, n) && i < |steps|
    ensures Readable(u, steps[i], n) && StepSound(steps[i], n)
    ensures CommitHash(Rebuild(u, steps[i])) == steps[i][CommitHashField]
    ensures Comparable(Rebuild(u, steps[i]).step) == Num(i as real)
  {
    hide Rebuildable, Rebuild, CommitHash, StepSound;
    assert RecordsOf(u, steps, n)[i] == RecordOfStep(u, steps[i]);
  }

  /** Binding: two accepted logs with the same commitments, of any schema, carry the same canonical
      payloads, numbered 0, 1, 2, ..., under pairwise different nonces. */
  lemma CommitmentBinding(u: Unroll, a: seq<Dict>, b: seq<Dict>, n: int, n': int)
    requires LogAccepted(u, a, n) && LogAccepted(u, b, n') && SameCommitments(a, b)
    ensures forall i :: 0 <= i < |a| ==>
              && Rebuildable(u, a[i]) && Rebuildable(u, b[i])
              && Canonical(Rebuild(u, a[i])) == Canonical(Rebuild(u, b[i]))
              && Comparable(Rebuild(u, a[i]).step) == Num(i as real)
    ensures forall i, j :: 0 <= i < j < |a| ==>
              Comparable(Rebuild(u, a[i]).nonce) != Comparable(Rebuild(u, a[j]).nonce)
  {
    hide Rebuildable, Rebuild, Canonical, LogAccepted, StepSound, Comparable;
    forall i | 0 <= i < |a|
      ensures Rebuildable(u, a[i]) && Rebuildable(u, b[i])
      ensures Canonical(Rebuild(u, a[i])) == Canonical(Rebuild(u, b[i]))
      ensures Comparable(Rebuild(u, a[i]).step) == Num(i as real)
    {
      HashColumn(u, a, n, i);
      HashColumn(u, b, n', i);
    }
    forall i, j | 0 <= i < j < |a|
      ensures Comparable(Rebuild(u, a[i]).nonce) != Comparable(Rebuild(u, a[j]).nonce)
    {
      AcceptedNonces(u, a, n, i, j);
    }
  }

  lemma AcceptedNonces(u: Unroll, steps: seq<Dict>, n: int, i: nat, j: nat)
    requires LogAccepted(u, steps, n) && i < j < |steps|
    ensures Comparable(Rebuild(u, steps[i]).nonce) != Comparable(Rebuild(u, steps[j]).nonce)
  {
    hide Rebuildable, Rebuild, CommitHash, StepSound, Comparable;
    assert RecordsOf(u, steps, n)[i] == RecordOfStep(u, steps[i]);
    assert RecordsOf(u, steps, n)[j] == RecordOfStep(u, steps[j]);
  }

  // ----- Honest logs -----

  function LogSteps(records: seq<OwnRecord>): (steps: seq<Dict>)
    ensures |steps| == |records|
    ensures forall i :: 0 <= i < |records| ==> steps[i] == LogStep(records[i].Sealed())
  {
    seq(|records|, i requires 0 <= i < |records| => LogStep(records[i].Sealed()))
  }

  lemma OwnPayloadIsNormal(t: TurnData)
    ensures Normal(PayloadOf(t)) && !IsLegacy(PayloadOf(t))
  {
  }

  /** A step written for an own record holds every sealed field and nothing else. */
  lemma OwnStepValue(r: OwnRecord, f: Field)
    ensures f in LogStep(r.Sealed()) <==> f.CommitHashField? || IsCanonical(f)
    ensures IsCanonical(f) ==> LogStep(r.Sealed())[f] == FieldValue(PayloadOf(r.turn), f)
  {
    hide FieldValue, LogStep;
    OwnPayloadIsNormal(r.turn);
  }

  lemma OwnStepIsSound(u: Unroll, r: OwnRecord, n: int)
    requires r.commitHash == CommitHash(PayloadOf(r.turn))
    ensures Readable(u, LogStep(r.Sealed()), n) && StepSound(LogStep(r.Sealed()), n)
    ensures Rebuild(u, LogStep(r.Sealed())) == PayloadOf(r.turn)
  {
    hide LogStep, Rebuildable, Rebuild, FieldValue, Canonical;
    var d := LogStep(r.Sealed());
    OwnPayloadIsNormal(r.turn);
    WrittenStepsRoundTrip(u, r.Sealed());
    OwnStepRaw(r);
    forall f | f in d ensures IsCanonical(f) || f.CommitHashField? {
      OwnStepValue(r, f);
    }
  }

  lemma OwnStepRaw(r: OwnRecord)
    ensures var d := LogStep(r.Sealed());
            && Get(d, BarrierField, Null) == Null && Get(d, ClaimField, Null) == Null
            && Get(d, RoleField, Null) == Str("thief")
            && CommitHashField in d && d[CommitHashField] == r.commitHash
  {
    hide LogStep;
    OwnStepValue(r, BarrierField);
    OwnStepValue(r, ClaimField);
    OwnStepValue(r, RoleField);
  }

  /** Completeness for one log: what an honest run writes is accepted exactly when no nonce was
      repeated, and checking it never raises. */
  lemma HonestLogIsAccepted(u: Unroll, cfg: Config, number: nat, records: seq<OwnRecord>, inputs: Inputs, n: int)
    requires Lawful(cfg, number, records, inputs)
    ensures LogCheckable(u, LogSteps(records), n)
    ensures LogAccepted(u, LogSteps(records), n) <==> FreshNonces(inputs, |records|)
    ensures LogAccepted(u, LogSteps(records), n) <==> AuditVerdict(records).Verified?
  {
    hide Sortable, Readable, StepSound, Rebuild, Rebuildable, CommitHash, PayloadOf, AuditVerdict, Lawful, LogStep;
    var steps := LogSteps(records);
    forall i | 0 <= i < |steps|
      ensures Readable(u, steps[i], n) && StepSound(steps[i], n)
      ensures Rebuildable(u, steps[i]) && CommitHashField in steps[i]
      ensures RecordOfStep(u, steps[i]) == records[i].Sealed()
      ensures Comparable(records[i].Sealed().payload.step) == Num(i as real)
    {
      LawfulSeal(cfg, number, records, inputs, i);
      OwnStepIsSound(u, records[i], n);
      OwnStepRaw(records[i]);
      ReadableParts(u, steps[i], n);
    }
    assert RecordsOf(u, steps, n) == SealedList(records);
    NothingToSort();
    LawfulAudit(cfg, number, records, inputs);
    AuditMeaning(records);
  }

  lemma NothingToSort()
    ensures Sortable([])
  {
  }

  lemma ReadableParts(u: Unroll, d: Dict, n: int)
    requires Readable(u, d, n)
    ensures Rebuildable(u, d) && CommitHashField in d
  {
  }

  lemma AuditMeaning(records: seq<OwnRecord>)
    ensures AuditVerdict(records).Verified? <==> HashesMatch(SealedList(records)) && NoncesDistinct(SealedList(records))
  {
  }

  lemma LawfulSeal(cfg: Config, number: nat, records: seq<OwnRecord>, inputs: Inputs, i: nat)
    requires Lawful(cfg, number, records, inputs) && i < |records|
    ensures records[i].commitHash == CommitHash(PayloadOf(records[i].turn))
    ensures PayloadOf(records[i].turn).step == Int(i)
    ensures Square(cfg.gridSize, records[i].turn.scent)
  {
    hide CommitHash;
    assert LawfulRecord(cfg, number, records, inputs, i);
  }

  // ----- Tampering with an honest log -----

  /** The fields whose value equals what a reader assumes when the key is missing. */
  predicate Droppable(d: Dict, f: Field)
    requires f in d
  {
    match f
    case BarrierField => d[f].Null?
    case ClaimField => d[f].Null?
    case ClaimResponseField => d[f].Null?
    case WinClaimField => d[f] == Bool(false)
    case PositionField => d[f] == Arr([Int(0), Int(0)])
    case _ => false
  }

  /** `e` is `d` without some of its droppable keys. */
  ghost predicate Trimmed(d: Dict, e: Dict) {
    && (forall f :: f in e ==> f in d && e[f] == d[f])
    && forall f :: f in d && f !in e ==> Droppable(d, f)
  }

  /** The keys that are taken over as they are. */
  predicate IsScalar(f: Field) {
    IsCanonical(f) && !f.PositionField? && !f.BarrierField? && !f.ClaimField? && !f.ScentGridField?
  }

  lemma RebuiltScalar(u: Unroll, e: Dict, f: Field)
    requires Rebuildable(u, e) && IsScalar(f)
    ensures f in e ==> FieldValue(Rebuild(u, e), f) == e[f]
    ensures f !in e ==> f.SchemaField? || f.ClaimResponseField? || f.WinClaimField?
    ensures f !in e ==> FieldValue(Rebuild(u, e), f) == match f
                          case SchemaField => Str("sealed-turn/1")
                          case WinClaimField => Bool(false)
                          case _ => Null
  {
    hide REQUIRED, PositionOf, ScentOf, OptionalCell;
    RequiredKeys(u, e);
  }

  /** Anything but a list iterates to strings. */
  lemma OnlyListsYieldNumbers(u: Unroll, j: Json)
    ensures TupleOf(u, j).Some? ==>
              var items := TupleOf(u, j).value;
              j == Arr(items) || forall k :: 0 <= k < |items| ==> items[k].Str?
  {
  }

  lemma OnlyTheCellRebuilds(u: Unroll, j: Json, row: int, col: int)
    requires TupleOf(u, j) == Some([Int(row), Int(col)])
    ensures j == Arr([Int(row), Int(col)])
  {
    OnlyListsYieldNumbers(u, j);
    assert TupleOf(u, j).value[0] == Int(row);
  }

  lemma OnlyTheRowRebuilds(u: Unroll, j: Json, row: seq<real>)
    requires |row| > 0 && TupleOf(u, j) == Some(NumberRow(row).items)
    ensures j == NumberRow(row)
  {
    OnlyListsYieldNumbers(u, j);
    assert TupleOf(u, j).value[0] == Num(row[0]);
  }

  /** Only the list of lists of numbers itself rebuilds to a grid of numbers. */
  lemma OnlyTheGridRebuilds(u: Unroll, j: Json, grid: Grid, n: nat)
    requires n >= 1 && Square(n, grid) && GridOf(u, j) == Some(NumberRows(grid))
    ensures j == GridList(NumberRows(grid))
  {
    var items := TupleOf(u, j).value;
    forall r | 0 <= r < n ensures items[r] == NumberRow(grid[r]) {
      assert TupleOf(u, items[r]) == Some(NumberRows(grid)[r]);
      OnlyTheRowRebuilds(u, items[r], grid[r]);
    }
    OnlyListsYieldNumbers(u, j);
    assert items[0].Arr?;
    assert items == GridList(NumberRows(grid)).items;
  }

  /** A step whose payload canonicalizes like an own turn, and that passes the step checks. */
  ghost predicate Passes(u: Unroll, r: OwnRecord, e: Dict, n: int) {
    && Readable(u, e, n) && StepSound(e, n)
    && e[CommitHashField] == r.commitHash
    && Canonical(Rebuild(u, e)) == Canonical(PayloadOf(r.turn))
  }

  lemma PassingAgrees(u: Unroll, r: OwnRecord, e: Dict, n: int)
    requires Passes(u, r, e, n)
    ensures Agree(Rebuild(u, e), PayloadOf(r.turn))
  {
    hide Rebuild, Rebuildable, FieldValue, PayloadOf, StepSound;
    var q, p := Rebuild(u, e), PayloadOf(r.turn);
    OwnPayloadIsNormal(r.turn);
    assert Canonical(q)[SchemaField] == Canonical(p)[SchemaField];
    assert q.schema == p.schema by {
      assert FieldValue(q, SchemaField) == FieldValue(p, SchemaField);
      OptionalValues(q);
      OptionalValues(p);
    }
    forall f | IsCanonical(f) ensures FieldValue(q, f) == FieldValue(p, f) {
      assert Canonical(q)[f] == Canonical(p)[f];
    }
  }

  /** Its keys are sealed keys. */
  lemma PassingKeys(u: Unroll, r: OwnRecord, e: Dict, n: int)
    requires Passes(u, r, e, n)
    ensures SchemaField in e && e[SchemaField] == Str(CURRENT_SCHEMA)
    ensures forall f :: f in e ==> IsCanonical(f) || f.CommitHashField?
    ensures RoleField in e && e[RoleField] == Str("thief")
  {
    hide Rebuild, Rebuildable, FieldValue, Canonical;
    PassingAgrees(u, r, e, n);
    RebuiltScalar(u, e, SchemaField);
    RebuiltScalar(u, e, RoleField);
    assert FieldValue(Rebuild(u, e), SchemaField) == FieldValue(PayloadOf(r.turn), SchemaField);
    assert FieldValue(Rebuild(u, e), RoleField) == FieldValue(PayloadOf(r.turn), RoleField);
    OptionalValues(PayloadOf(r.turn));
    PlayValues(PayloadOf(r.turn));
  }

  lemma PassingScalar(u: Unroll, r: OwnRecord, e: Dict, n: int, f: Field)
    requires Passes(u, r, e, n) && IsScalar(f)
    ensures f in LogStep(r.Sealed())
    ensures f in e ==> e[f] == LogStep(r.Sealed())[f]
    ensures f !in e ==> Droppable(LogStep(r.Sealed()), f)
  {
    hide Rebuild, Rebuildable, FieldValue, Canonical, StepSound, LogStep, PayloadOf;
    PassingAgrees(u, r, e, n);
    PassingKeys(u, r, e, n);
    RebuiltScalar(u, e, f);
    OwnStepValue(r, f);
  }

  lemma PassingPosition(u: Unroll, r: OwnRecord, e: Dict, n: int)
    requires Passes(u, r, e, n)
    ensures PositionField in LogStep(r.Sealed())
    ensures PositionField in e ==> e[PositionField] == LogStep(r.Sealed())[PositionField]
    ensures PositionField !in e ==> Droppable(LogStep(r.Sealed()), PositionField)
  {
    hide Rebuildable, Canonical, StepSound, LogStep, Search, FieldValue, ScentOf, OptionalCell;
    PassingAgrees(u, r, e, n);
    PassingKeys(u, r, e, n);
    OwnStepValue(r, PositionField);
    PositionValue(Rebuild(u, e));
    PositionValue(PayloadOf(r.turn));
    var at := r.turn.position;
    assert FieldValue(Rebuild(u, e), PositionField) == FieldValue(PayloadOf(r.turn), PositionField);
    assert PositionOf(u, e) == Some(Cell(at)) by { RebuiltPosition(u, e); }
    if PositionField in e {
      OnlyTheCellRebuilds(u, e[PositionField], at.row, at.col);
    } else {
      assert LegacyPosition(Str("")) == Some([Int(0), Int(0)]) by { NoLegacyText(); }
    }
  }

  lemma RebuiltPosition(u: Unroll, e: Dict)
    requires Rebuildable(u, e)
    ensures PositionOf(u, e) == Some(Rebuild(u, e).position) && ScentOf(u, e) == Some(Rebuild(u, e).scentGrid)
  {
  }

  lemma NoLegacyText()
    ensures LegacyPosition(Str("")) == Some([Int(0), Int(0)])
  {
    assert MatchAt("", 0).None?;
  }

  lemma PassingGrid(u: Unroll, r: OwnRecord, e: Dict, n: int, size: nat)
    requires Passes(u, r, e, n) && size >= 1 && Square(size, r.turn.scent)
    ensures ScentGridField in LogStep(r.Sealed())
    ensures ScentGridField in e && e[ScentGridField] == LogStep(r.Sealed())[ScentGridField]
  {
    hide Rebuildable, Canonical, StepSound, LogStep, FieldValue, GridList, NumberRows, Rebuild, GridOf, Square;
    PassingAgrees(u, r, e, n);
    OwnStepValue(r, ScentGridField);
    GridValue(Rebuild(u, e));
    GridValue(PayloadOf(r.turn));
    assert FieldValue(Rebuild(u, e), ScentGridField) == FieldValue(PayloadOf(r.turn), ScentGridField);
    RebuiltPosition(u, e);
    GridListDetermines(Rebuild(u, e).scentGrid, NumberRows(r.turn.scent));
    assert NumberRows(r.turn.scent) != [] by { RowsNotEmpty(size, r.turn.scent); }
    OnlyTheGridRebuilds(u, e[ScentGridField], r.turn.scent, size);
  }

  lemma RowsNotEmpty(size: nat, grid: Grid)
    requires size >= 1 && Square(size, grid)
    ensures NumberRows(grid) != []
  {
  }

  lemma CellValues(p: Payload)
    ensures FieldValue(p, BarrierField) == CellList(p.barrier) && FieldValue(p, ClaimField) == CellList(p.claim)
  {
  }

  lemma GridValue(p: Payload)
    ensures FieldValue(p, ScentGridField) == GridList(p.scentGrid)
  {
  }

  lemma GridListDetermines(a: seq<seq<Json>>, b: seq<seq<Json>>)
    requires GridList(a) == GridList(b)
    ensures a == b
  {
    assert |a| == |GridList(a).items| == |b|;
    forall r | 0 <= r < |a| ensures a[r] == b[r] {
      assert GridList(a).items[r] == GridList(b).items[r];
    }
  }

  lemma PassingCells(u: Unroll, r: OwnRecord, e: Dict, n: int, f: Field)
    requires Passes(u, r, e, n) && (f.BarrierField? || f.ClaimField?)
    ensures f in LogStep(r.Sealed())
    ensures f in e ==> e[f] == LogStep(r.Sealed())[f]
    ensures f !in e ==> Droppable(LogStep(r.Sealed()), f)
  {
    hide Rebuildable, Rebuild, Canonical, LogStep, OnlyKnownFields, CellInBounds, FieldValue;
    PassingKeys(u, r, e, n);
    OwnStepValue(r, f);
    CellValues(PayloadOf(r.turn));
  }

  lemma PassingIsTrimmed(u: Unroll, r: OwnRecord, e: Dict, n: int, size: nat)
    requires Passes(u, r, e, n) && size >= 1 && Square(size, r.turn.scent)
    ensures Trimmed(LogStep(r.Sealed()), e)
  {
    hide Passes, LogStep, Square, Droppable;
    var d := LogStep(r.Sealed());
    PassingKeys(u, r, e, n);
    PassingGrid(u, r, e, n, size);
    PassingPosition(u, r, e, n);
    PassingCells(u, r, e, n, BarrierField);
    PassingCells(u, r, e, n, ClaimField);
    assert CommitHashField in e && e[CommitHashField] == d[CommitHashField] by { PassingHash(u, r, e, n); }
    forall f | f in e || f in d
      ensures f in d && (f in e ==> e[f] == d[f]) && (f !in e ==> Droppable(d, f))
    {
      OwnStepValue(r, f);
      if IsScalar(f) {
        PassingScalar(u, r, e, n, f);
      }
    }
  }

  lemma PassingHash(u: Unroll, r: OwnRecord, e: Dict, n: int)
    requires Passes(u, r, e, n)
    ensures CommitHashField in e && e[CommitHashField] == LogStep(r.Sealed())[CommitHashField]
  {
    hide Canonical, StepSound;
  }

  // ----- Dropping droppable keys is harmless -----

  /** Every sealed key is there with its sealed value, or it is droppable. */
  lemma TrimmedValue(r: OwnRecord, e: Dict, f: Field)
    requires Trimmed(LogStep(r.Sealed()), e) && IsCanonical(f)
    ensures f in LogStep(r.Sealed()) && LogStep(r.Sealed())[f] == FieldValue(PayloadOf(r.turn), f)
    ensures if f in e then e[f] == FieldValue(PayloadOf(r.turn), f) else Droppable(LogStep(r.Sealed()), f)
  {
    hide LogStep, FieldValue, Droppable;
    OwnStepValue(r, f);
  }

  /** Required keys are never droppable. */
  lemma RequiredKind(f: Field)
    requires f in REQUIRED
    ensures IsScalar(f) && !f.ClaimResponseField? && !f.WinClaimField?
  {
  }

  lemma TrimmedRequired(r: OwnRecord, e: Dict)
    requires Trimmed(LogStep(r.Sealed()), e)
    ensures forall f :: f in REQUIRED ==> f in e
  {
    hide LogStep, FieldValue, Trimmed, REQUIRED;
    forall f | f in REQUIRED ensures f in e {
      RequiredKind(f);
      TrimmedValue(r, e, f);
    }
  }

  lemma TrimmedHash(r: OwnRecord, e: Dict)
    requires Trimmed(LogStep(r.Sealed()), e)
    ensures CommitHashField in e && e[CommitHashField] == r.commitHash
  {
    hide LogStep, FieldValue, IsCanonical;
    OwnStepRaw(r);
  }

  lemma TrimmedKeys(r: OwnRecord, e: Dict)
    requires Trimmed(LogStep(r.Sealed()), e)
    ensures CommitHashField in e && e[CommitHashField] == r.commitHash
    ensures forall f :: f in e ==> IsCanonical(f) || f.CommitHashField?
  {
    hide LogStep, FieldValue, Droppable;
    forall f | f in e ensures IsCanonical(f) || f.CommitHashField? {
      OwnStepValue(r, f);
    }
    TrimmedHash(r, e);
  }

  lemma TrimmedPosition(u: Unroll, r: OwnRecord, e: Dict)
    requires Trimmed(LogStep(r.Sealed()), e)
    ensures PositionOf(u, e) == Some(Cell(r.turn.position))
  {
    hide LogStep, FieldValue, Search, Trimmed;
    TrimmedValue(r, e, PositionField);
    PositionValue(PayloadOf(r.turn));
    TrimmedKeys(r, e);
    NoLegacyText();
  }

  lemma TrimmedScent(u: Unroll, r: OwnRecord, e: Dict)
    requires Trimmed(LogStep(r.Sealed()), e)
    ensures ScentOf(u, e) == Some(NumberRows(r.turn.scent))
  {
    hide LogStep, FieldValue, GridOf, GridList, NumberRows, Trimmed;
    TrimmedValue(r, e, ScentGridField);
    GridValue(PayloadOf(r.turn));
    GridRoundTrip(u, NumberRows(r.turn.scent));
  }

  lemma TrimmedCells(r: OwnRecord, e: Dict)
    requires Trimmed(LogStep(r.Sealed()), e)
    ensures Get(e, BarrierField, Null) == Null && Get(e, ClaimField, Null) == Null
  {
    hide LogStep, Trimmed;
    TrimmedValue(r, e, BarrierField);
    TrimmedValue(r, e, ClaimField);
  }

  lemma TrimmedRebuilds(u: Unroll, r: OwnRecord, e: Dict)
    requires Trimmed(LogStep(r.Sealed()), e)
    ensures Rebuildable(u, e)
    ensures PositionOf(u, e) == Some(Cell(r.turn.position)) && ScentOf(u, e) == Some(NumberRows(r.turn.scent))
    ensures Get(e, BarrierField, Null) == Null && Get(e, ClaimField, Null) == Null
    ensures CommitHashField in e && e[CommitHashField] == r.commitHash
    ensures forall f :: f in e ==> IsCanonical(f) || f.CommitHashField?
  {
    hide LogStep, Trimmed, PositionOf, ScentOf, REQUIRED;
    TrimmedRequired(r, e);
    TrimmedKeys(r, e);
    TrimmedPosition(u, r, e);
    TrimmedScent(u, r, e);
    TrimmedCells(r, e);
  }

  lemma TrimmedScalar(u: Unroll, r: OwnRecord, e: Dict, f: Field)
    requires Trimmed(LogStep(r.Sealed()), e) && Rebuildable(u, e) && IsScalar(f)
    ensures FieldValue(Rebuild(u, e), f) == FieldValue(PayloadOf(r.turn), f)
  {
    hide LogStep, Rebuildable, Rebuild, FieldValue;
    OwnStepValue(r, f);
    RebuiltScalar(u, e, f);
  }

  lemma TrimmedRest(u: Unroll, r: OwnRecord, e: Dict, f: Field)
    requires Trimmed(LogStep(r.Sealed()), e) && Rebuildable(u, e)
    requires f.PositionField? || f.BarrierField? || f.ClaimField? || f.ScentGridField?
    ensures FieldValue(Rebuild(u, e), f) == FieldValue(PayloadOf(r.turn), f)
  {
    hide LogStep, Trimmed, Rebuildable, Rebuild, FieldValue, CellList, GridList, NumberRows, PositionOf, ScentOf;
    TrimmedRebuilds(u, r, e);
    RebuiltPosition(u, e);
    RebuiltCells(u, e);
    var q, p := Rebuild(u, e), PayloadOf(r.turn);
    PositionValue(q);
    PositionValue(p);
    GridValue(q);
    GridValue(p);
    CellValues(q);
    CellValues(p);
  }

  lemma TrimmedAgrees(u: Unroll, r: OwnRecord, e: Dict)
    requires Trimmed(LogStep(r.Sealed()), e)
    ensures Rebuildable(u, e) && Agree(Rebuild(u, e), PayloadOf(r.turn)) && !IsLegacy(Rebuild(u, e))
  {
    hide LogStep, Trimmed, IsScalar, Rebuildable, Rebuild, FieldValue, PayloadOf;
    TrimmedRebuilds(u, r, e);
    var q, p := Rebuild(u, e), PayloadOf(r.turn);
    forall f | IsCanonical(f) ensures FieldValue(q, f) == FieldValue(p, f) {
      if IsScalar(f) {
        TrimmedScalar(u, r, e, f);
      } else {
        NotScalar(f);
        TrimmedRest(u, r, e, f);
      }
    }
    assert FieldValue(q, SchemaField) == FieldValue(p, SchemaField);
    OptionalValues(q);
    OptionalValues(p);
    OwnPayloadIsNormal(r.turn);
  }

  lemma NotScalar(f: Field)
    requires IsCanonical(f) && !IsScalar(f)
    ensures f.PositionField? || f.BarrierField? || f.ClaimField? || f.ScentGridField?
  {
  }

  lemma RebuiltCells(u: Unroll, e: Dict)
    requires Rebuildable(u, e) && Get(e, BarrierField, Null) == Null && Get(e, ClaimField, Null) == Null
    ensures Rebuild(u, e).barrier == None && Rebuild(u, e).claim == None
  {
  }

  lemma AgreeingCanonical(p: Payload, q: Payload)
    requires Agree(p, q) && !IsLegacy(p) && !IsLegacy(q)
    ensures Canonical(p) == Canonical(q)
  {
    hide FieldValue;
    assert forall f :: f in Canonical(p) <==> f in Canonical(q);
  }

  lemma TrimmedRaw(u: Unroll, r: OwnRecord, e: Dict)
    requires Trimmed(LogStep(r.Sealed()), e)
    ensures Rebuildable(u, e) && Canonical(Rebuild(u, e)) == Canonical(PayloadOf(r.turn)) && !IsLegacy(Rebuild(u, e))
    ensures Rebuild(u, e).nonce == PayloadOf(r.turn).nonce && RoleField in e && e[RoleField] == Str("thief")
  {
    hide LogStep, Trimmed, Rebuildable, Rebuild, FieldValue, Canonical, IsLegacy;
    TrimmedAgrees(u, r, e);
    OwnPayloadIsNormal(r.turn);
    var q, p := Rebuild(u, e), PayloadOf(r.turn);
    AgreeingCanonical(q, p);
    assert FieldValue(q, NonceField) == FieldValue(p, NonceField);
    SealValues(q);
    SealValues(p);
    RebuiltScalar(u, e, RoleField);
    assert FieldValue(q, RoleField) == FieldValue(p, RoleField);
    PlayValues(p);
  }

  lemma TrimmedPasses(u: Unroll, r: OwnRecord, e: Dict, n: int)
    requires Trimmed(LogStep(r.Sealed()), e) && IsDigest(r.commitHash)
    ensures Passes(u, r, e, n)
  {
    hide LogStep, Trimmed, Rebuildable, Rebuild, FieldValue, Canonical, PositionOf, ScentOf, IsDigest;
    TrimmedRebuilds(u, r, e);
    TrimmedRaw(u, r, e);
  }

  // ----- The exact tolerance -----

  /** Fix the published commitments of an honest log. A log of at most as many steps that shows no other
      commitment is accepted if and only if each of its steps is the honest step of its place, up to
      leaving out keys whose value is the reader's default: every other change, to any field of any
      step, is reported. That steps are missing at the end is not seen in the log alone. */
  lemma TamperingIsReported(u: Unroll, cfg: Config, number: nat, records: seq<OwnRecord>, inputs: Inputs, b: seq<Dict>,
                            n: int)
    requires cfg.gridSize >= 1 && Lawful(cfg, number, records, inputs) && FreshNonces(inputs, |records|)
    requires |b| <= |records|
    requires forall i :: 0 <= i < |b| ==> CommitHashField in b[i] ==> b[i][CommitHashField] == records[i].commitHash
    ensures LogAccepted(u, b, n) <==> forall i :: 0 <= i < |b| ==> Trimmed(LogStep(records[i].Sealed()), b[i])
  {
    hide LogAccepted, Trimmed, LogStep, CommitHash, PayloadOf, Lawful, Passes, FreshNonces;
    if LogAccepted(u, b, n) {
      forall i | 0 <= i < |b| ensures Trimmed(LogStep(records[i].Sealed()), b[i]) {
        LawfulSeal(cfg, number, records, inputs, i);
        AcceptedHasHash(u, b, n, i);
        AcceptedPasses(u, records[i], b, n, i);
        PassingIsTrimmed(u, records[i], b[i], n, cfg.gridSize);
      }
    }
    if forall i :: 0 <= i < |b| ==> Trimmed(LogStep(records[i].Sealed()), b[i]) {
      forall i | 0 <= i < |b| ensures Passes(u, records[i], b[i], n) {
        LawfulSeal(cfg, number, records, inputs, i);
        assert IsDigest(records[i].commitHash) by { HashIsDigest(records[i]); }
        TrimmedPasses(u, records[i], b[i], n);
      }
      PassingLogIsAccepted(u, cfg, number, records, inputs, b, n);
    }
  }

  lemma HashIsDigest(r: OwnRecord)
    requires r.commitHash == CommitHash(PayloadOf(r.turn))
    ensures IsDigest(r.commitHash)
  {
  }

  lemma AcceptedHasHash(u: Unroll, b: seq<Dict>, n: int, i: nat)
    requires LogAccepted(u, b, n) && i < |b|
    ensures CommitHashField in b[i]
  {
    hide StepSound, HashesMatch, NoncesDistinct, StepsInOrder;
    assert Readable(u, b[i], n);
  }

  lemma AcceptedPasses(u: Unroll, r: OwnRecord, b: seq<Dict>, n: int, i: nat)
    requires LogAccepted(u, b, n) && i < |b|
    requires CommitHashField in b[i] && b[i][CommitHashField] == r.commitHash == CommitHash(PayloadOf(r.turn))
    ensures Passes(u, r, b[i], n)
  {
    hide LogAccepted, Readable, StepSound, Rebuild, Canonical, PayloadOf;
    HashColumn(u, b, n, i);
  }

  lemma PassingSeal(u: Unroll, r: OwnRecord, e: Dict, n: int)
    requires Passes(u, r, e, n) && r.commitHash == CommitHash(PayloadOf(r.turn))
    ensures Rebuildable(u, e) && CommitHashField in e
    ensures CommitHash(RecordOfStep(u, e).payload) == RecordOfStep(u, e).commitHash
    ensures RecordOfStep(u, e).payload.step == PayloadOf(r.turn).step
    ensures RecordOfStep(u, e).payload.nonce == PayloadOf(r.turn).nonce
  {
    hide Rebuild, Rebuildable, FieldValue, Canonical, PayloadOf, StepSound;
    PassingAgrees(u, r, e, n);
    var q, p := Rebuild(u, e), PayloadOf(r.turn);
    assert FieldValue(q, StepField) == FieldValue(p, StepField);
    assert FieldValue(q, NonceField) == FieldValue(p, NonceField);
    PlayValues(q);
    PlayValues(p);
    SealValues(q);
    SealValues(p);
  }

  lemma PassingLogIsAccepted(u: Unroll, cfg: Config, number: nat, records: seq<OwnRecord>, inputs: Inputs,
                             b: seq<Dict>, n: int)
    requires Lawful(cfg, number, records, inputs) && FreshNonces(inputs, |records|) && |b| <= |records|
    requires forall i :: 0 <= i < |b| ==> Passes(u, records[i], b[i], n)
    ensures LogAccepted(u, b, n)
  {
    hide Passes, CommitHash, PayloadOf, Lawful, Readable, StepSound, Rebuild, Rebuildable;
    forall i | 0 <= i < |b|
      ensures Readable(u, b[i], n) && StepSound(b[i], n) && Rebuildable(u, b[i]) && CommitHashField in b[i]
      ensures var rec := RecordOfStep(u, b[i]);
              && CommitHash(rec.payload) == rec.commitHash && Comparable(rec.payload.step) == Num(i as real)
              && rec.payload.nonce == PayloadOf(records[i].turn).nonce
    {
      LawfulSeal(cfg, number, records, inputs, i);
      PassingSeal(u, records[i], b[i], n);
      assert Readable(u, b[i], n) && StepSound(b[i], n) by { PassingChecks(u, records[i], b[i], n); }
    }
    LawfulAudit(cfg, number, records, inputs);
    AuditMeaning(records);
    var rebuilt := RecordsOf(u, b, n);
    forall i, j | 0 <= i < j < |rebuilt|
      ensures Comparable(rebuilt[i].payload.nonce) != Comparable(rebuilt[j].payload.nonce)
    {
      assert SealedList(records)[i].payload.nonce == rebuilt[i].payload.nonce;
      assert SealedList(records)[j].payload.nonce == rebuilt[j].payload.nonce;
    }
  }

  lemma PassingChecks(u: Unroll, r: OwnRecord, e: Dict, n: int)
    requires Passes(u, r, e, n)
    ensures Readable(u, e, n) && StepSound(e, n)
  {
  }

  /** The tolerance is real: without its win claim an honest step is another dictionary, and passes. */
  lemma WinClaimCanBeLeftOut(r: OwnRecord)
    ensures var d := LogStep(r.Sealed());
            WinClaimField in d && d - {WinClaimField} != d && Trimmed(d, d - {WinClaimField})
  {
    hide LogStep, FieldValue;
    var d := LogStep(r.Sealed());
    OwnStepValue(r, WinClaimField);
    OptionalValues(PayloadOf(r.turn));
    assert WinClaimField !in d - {WinClaimField};
  }
}
