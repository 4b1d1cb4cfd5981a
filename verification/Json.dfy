/** JSON values as the program sees them, with SHA-256 over canonical JSON kept symbolic. */
module Json {
  /** The keys of the dictionaries that matter here; any other string is `OtherField`. */
  datatype Field =
    | SchemaField | StepField | RoleField | SubGameField | PositionField | StateField | MoveField | IntentField
    | HintField | ScentDigestField | ScentGridField | BarrierField | ClaimField | ClaimResponseField
    | WinClaimField | ConfigField | TimestampField | NonceField | CommitHashField | OtherField(name: string)

  type Dict = map<Field, Json>

  /** `Hex(of)` is the hexadecimal SHA-256 digest of the canonical encoding of `of`: an abstract
      string that determines `of`. `NonFinite` stands for NaN and the infinities. */
  datatype Json =
    | Null
    | Bool(b: bool)
    | Int(i: int)
    | Num(r: real)
    | NonFinite
    | Str(s: string)
    | Hex(of: Json)
    | Arr(items: seq<Json>)
    | Obj(fields: map<Field, Json>)

  /** `canonical_sha256_hex`: collision-free by construction. */
  function CanonicalSha256(data: Json): Json {
    Hex(data)
  }

  function NumberRow(row: seq<real>): (j: Json) {
    Arr(seq(|row|, c requires 0 <= c < |row| => Num(row[c])))
  }

  /** A grid of numbers as nested lists. */
  function NumberGrid(grid: seq<seq<real>>): (j: Json) {
    Arr(seq(|grid|, r requires 0 <= r < |grid| => NumberRow(grid[r])))
  }

  /** Python's truth value. */
  predicate Truthy(j: Json) {
    match j
    case Null => false
    case Bool(b) => b
    case Int(i) => i != 0
    case Num(r) => r != 0.0
    case Str(text) => text != ""
    case Arr(items) => items != []
    case Obj(fields) => fields != map[]
    case NonFinite => true
    case Hex(_) => true
  }

  predicate Hashable(j: Json) {
    !j.Arr? && !j.Obj?
  }

  /** `d.get(f, default)`. */
  function Get(d: Dict, f: Field, default: Json): Json {
    if f in d then d[f] else default
  }

  /** Python's `j == i` for an integer `i`. */
  predicate Denotes(j: Json, i: int) {
    j == Int(i) || j == Num(i as real) || (i == 1 && j == Bool(true)) || (i == 0 && j == Bool(false))
  }

  /** The dictionary holds, under a key, a value equal to an integer. */
  predicate HoldsNumber(d: Dict, f: Field, i: int) {
    f in d && Denotes(d[f], i)
  }

  /** `d.get(f) is None`. */
  predicate Silent(d: Dict, f: Field) {
    f in d ==> d[f] == Null
  }
}
