/** The bilateral end-of-series agreement (services/result_agreement.py, series_scoring.py). */
module Agreement {
  import opened Options
  import opened Json
  import opened Inbox
  import opened Messages
  import opened Router
  import opened Sealing
  import opened TurnEngine
  import opened SeriesRuntime

  datatype FinalAgreement = FinalAgreement(agreed: bool, status: AgreementStatus, police: int, thief: int)

  /** A missing submission leaves the own totals provisional, an equal one certifies them, a
      different one zeroes both. */
  function ResolveFinal(police: int, thief: int, theirPolice: Json, theirThief: Json): FinalAgreement {
    if theirPolice.Null? || theirThief.Null? then FinalAgreement(false, UnverifiedSelfPlay, police, thief)
    else if Comparable(theirPolice) == Comparable(Int(police)) && Comparable(theirThief) == Comparable(Int(thief)) then
      FinalAgreement(true, Agreed, police, thief)
    else FinalAgreement(false, DisputedZeroed, 0, 0)
  }

  // ----- The digest -----

  function ResultName(r: Result): string {
    match r case Capture => "capture" case Survival => "survival" case TechnicalLoss => "technical_loss"
  }

  /** What of a game enters the digest: everything but the audit flag. */
  function Row(g: GameRecord): Json {
    Obj(map[SubGameField := Int(g.number), OtherField("result") := Str(ResultName(g.result)),
            OtherField("police_score") := Int(g.police), OtherField("thief_score") := Int(g.thief),
            OtherField("steps") := Int(g.steps)])
  }

  function Insert(g: GameRecord, sorted: seq<GameRecord>): seq<GameRecord> {
    if sorted == [] || g.number <= sorted[0].number then [g] + sorted else [sorted[0]] + Insert(g, sorted[1..])
  }

  /** The stable sort by sub-game number. */
  function ByNumber(games: seq<GameRecord>): seq<GameRecord> {
    if games == [] then [] else Insert(games[0], ByNumber(games[1..]))
  }

  function Rows(games: seq<GameRecord>): (rows: seq<Json>)
    ensures |rows| == |games| && forall i :: 0 <= i < |games| ==> rows[i] == Row(games[i])
  {
    seq(|games|, i requires 0 <= i < |games| => Row(games[i]))
  }

  function ResultDigest(games: seq<GameRecord>): Json {
    CanonicalSha256(Arr(Rows(ByNumber(games))))
  }

  ghost predicate Numbered(games: seq<GameRecord>) {
    forall i :: 0 <= i < |games| ==> games[i].number == i + 1
  }

  ghost predicate Ascending(games: seq<GameRecord>) {
    forall i, j :: 0 <= i < j < |games| ==> games[i].number < games[j].number
  }

  lemma {:induction false} SortOfAscending(games: seq<GameRecord>)
    requires Ascending(games)
    ensures ByNumber(games) == games
  {
    if games != [] {
      SortOfAscending(games[1..]);
    }
  }

  ghost predicate Sorted(games: seq<GameRecord>) {
    forall i, j :: 0 <= i < j < |games| ==> games[i].number <= games[j].number
  }

  lemma {:induction false} InsertPermutes(g: GameRecord, sorted: seq<GameRecord>)
    ensures multiset(Insert(g, sorted)) == multiset(sorted) + multiset{g}
  {
    if sorted != [] && g.number > sorted[0].number {
      InsertPermutes(g, sorted[1..]);
      assert sorted == [sorted[0]] + sorted[1..];
    }
  }

  lemma {:induction false} InsertSorts(g: GameRecord, sorted: seq<GameRecord>)
    requires Sorted(sorted)
    ensures Sorted(Insert(g, sorted))
    ensures forall h :: h in Insert(g, sorted) ==> h == g || h in sorted
  {
    if sorted != [] && g.number > sorted[0].number {
      InsertSorts(g, sorted[1..]);
      assert forall h :: h in sorted[1..] ==> h in sorted && sorted[0].number <= h.number;
    }
  }

  /** The sort is a sort. */
  lemma {:induction false} ByNumberSorts(games: seq<GameRecord>)
    ensures multiset(ByNumber(games)) == multiset(games)
    ensures Sorted(ByNumber(games))
  {
    if games != [] {
      ByNumberSorts(games[1..]);
      InsertPermutes(games[0], ByNumber(games[1..]));
      InsertSorts(games[0], ByNumber(games[1..]));
      assert games == [games[0]] + games[1..];
    }
  }

  /** The same games, row by row, up to the audit flag. */
  ghost predicate SameGames(a: seq<GameRecord>, b: seq<GameRecord>) {
    |a| == |b| && forall i :: 0 <= i < |a| ==> a[i] == b[i].(auditVerified := a[i].auditVerified)
  }

  /** The digests of two series numbered from one are equal exactly when they are of the same games. */
  lemma DigestIsExact(a: seq<GameRecord>, b: seq<GameRecord>)
    requires Numbered(a) && Numbered(b)
    ensures ResultDigest(a) == ResultDigest(b) <==> SameGames(a, b)
  {
    hide ResultName;
    SortOfAscending(a);
    SortOfAscending(b);
    if SameGames(a, b) {
      assert forall i :: 0 <= i < |a| ==> Row(a[i]) == Row(b[i]);
      assert Rows(a) == Rows(b);
    }
    if ResultDigest(a) == ResultDigest(b) {
      DigestDeterminesGames(a, b);
    }
  }

  lemma DigestDeterminesGames(a: seq<GameRecord>, b: seq<GameRecord>)
    requires Numbered(a) && Numbered(b) && ResultDigest(a) == ResultDigest(b)
    ensures SameGames(a, b)
  {
    hide Row;
    SortOfAscending(a);
    SortOfAscending(b);
    assert Rows(a) == Rows(b);
    forall i | 0 <= i < |a| ensures a[i] == b[i].(auditVerified := a[i].auditVerified) {
      assert Rows(a)[i] == Rows(b)[i];
      RowDeterminesGame(a[i], b[i]);
    }
  }

  lemma RowDeterminesGame(g: GameRecord, h: GameRecord)
    requires Row(g) == Row(h)
    ensures g == h.(auditVerified := g.auditVerified)
  {
    assert Row(g).fields[SubGameField] == Row(h).fields[SubGameField];
    assert Row(g).fields[OtherField("result")] == Row(h).fields[OtherField("result")];
    assert Row(g).fields[OtherField("police_score")] == Row(h).fields[OtherField("police_score")];
    assert Row(g).fields[OtherField("thief_score")] == Row(h).fields[OtherField("thief_score")];
    assert Row(g).fields[OtherField("steps")] == Row(h).fields[OtherField("steps")];
    assert ResultName(g.result)[0] == ResultName(h.result)[0];
  }

  // ----- Messages -----

  /** One side of the agreement: its identity and its own result. */
  datatype Side = Side(role: Role, gameUid: string, config: string, games: seq<GameRecord>, police: int, thief: int)

  const POLICE_TOTAL := OtherField("police_total")
  const THIEF_TOTAL := OtherField("thief_total")
  const NUM_SUB_GAMES := OtherField("num_sub_games")
  const RESULT_DIGEST := OtherField("result_digest")

  function AgreementMessage(me: Side): AuditMessage {
    AuditMessage(ResultAgreement, me.role, me.gameUid, 0, Some(me.config), NoId,
                 Obj(map[POLICE_TOTAL := Int(me.police), THIEF_TOTAL := Int(me.thief),
                         NUM_SUB_GAMES := Int(|me.games|), RESULT_DIGEST := ResultDigest(me.games)]))
  }

  function Fields(m: AuditMessage): Dict {
    if m.body.Obj? then m.body.fields else map[]
  }

  function FieldOf(m: AuditMessage, f: Field): Json {
    if f in Fields(m) then Fields(m)[f] else Null
  }

  /** The verdict of one peer on what it received, if anything. */
  function Decide(me: Side, theirs: Option<AuditMessage>): FinalAgreement {
    match theirs
    case None => ResolveFinal(me.police, me.thief, Null, Null)
    case Some(m) =>
      if || Comparable(FieldOf(m, NUM_SUB_GAMES)) != Comparable(Int(|me.games|))
         || FieldOf(m, RESULT_DIGEST) != ResultDigest(me.games) then
        FinalAgreement(false, DisputedZeroed, 0, 0)
      else ResolveFinal(me.police, me.thief, FieldOf(m, POLICE_TOTAL), FieldOf(m, THIEF_TOTAL))
  }

  /** What two peers must share for either to certify the other's honest message. */
  ghost predicate SameResult(a: Side, b: Side) {
    && |a.games| == |b.games| && ResultDigest(a.games) == ResultDigest(b.games)
    && a.police == b.police && a.thief == b.thief
  }

  lemma DecideOnHonest(me: Side, other: Side)
    ensures Decide(me, Some(AgreementMessage(other)))
         == if SameResult(me, other) then FinalAgreement(true, Agreed, me.police, me.thief)
            else FinalAgreement(false, DisputedZeroed, 0, 0)
  {
    hide ResultDigest;
    MessageFields(other);
  }

  lemma MessageFields(me: Side)
    ensures FieldOf(AgreementMessage(me), POLICE_TOTAL) == Int(me.police)
    ensures FieldOf(AgreementMessage(me), THIEF_TOTAL) == Int(me.thief)
    ensures FieldOf(AgreementMessage(me), NUM_SUB_GAMES) == Int(|me.games|)
    ensures FieldOf(AgreementMessage(me), RESULT_DIGEST) == ResultDigest(me.games)
  {
    hide ResultDigest;
    assert "police_total" != "thief_total" && "num_sub_games"[0] != "result_digest"[0];
  }

  // ----- Waiting for the opponent -----

  function IsOpponentAgreement(opponent: Role): AuditMessage -> bool {
    (m: AuditMessage) => m.atype.ResultAgreement? && m.sender == opponent
  }

  /** What arrives between two polls. */
  type Arrivals = nat -> seq<AuditIncoming>

  function HandleAll(b: Binding, life: Life, inbox: Audits, batch: seq<AuditIncoming>): Audits {
    if batch == [] then inbox
    else HandleAudit(b, life, HandleAll(b, life, inbox, batch[..|batch| - 1]), batch[|batch| - 1]).0
  }

  function Await(b: Binding, life: Life, inbox: Audits, opponent: Role, arrivals: Arrivals, k: nat,
                 polls: nat): (Audits, Option<AuditMessage>)
    decreases polls
  {
    if polls == 0 then (inbox, None)
    else
      var (popped, found) := inbox.Pop(IsOpponentAgreement(opponent));
      if found.Some? then (popped, found)
      else Await(b, life, HandleAll(b, life, inbox, arrivals(k)), opponent, arrivals, k + 1, polls - 1)
  }

  /** The audit inbox at poll `k` if no earlier poll found anything. */
  function InboxAt(b: Binding, life: Life, inbox: Audits, arrivals: Arrivals, k: nat): Audits {
    if k == 0 then inbox else HandleAll(b, life, InboxAt(b, life, inbox, arrivals, k - 1), arrivals(k - 1))
  }

  predicate AgreesFrom(m: AuditMessage, opponent: Role) {
    m.atype == ResultAgreement && m.sender == opponent
  }

  ghost predicate HasAgreement(inbox: Audits, opponent: Role) {
    exists i :: 0 <= i < |inbox.queue| && AgreesFrom(inbox.queue[i].message, opponent)
  }

  /** Poll `j` is the first to see an agreement message of the opponent, and takes its first one. */
  ghost predicate TakenAt(b: Binding, life: Life, inbox: Audits, opponent: Role, arrivals: Arrivals, j: nat,
                          found: Option<AuditMessage>) {
    var seen := InboxAt(b, life, inbox, arrivals, j);
    && (forall i :: 0 <= i < j ==> !HasAgreement(InboxAt(b, life, inbox, arrivals, i), opponent))
    && exists i :: && 0 <= i < |seen.queue| && found == Some(seen.queue[i].message)
                   && AgreesFrom(seen.queue[i].message, opponent)
                   && forall h :: 0 <= h < i ==> !AgreesFrom(seen.queue[h].message, opponent)
  }

  /** The bounded wait finds an agreement message exactly when one of the opponent's is queued at some
      poll of its budget, and then takes the first one at the first such poll. */
  lemma {:induction false} AwaitIsExact(b: Binding, life: Life, inbox: Audits, opponent: Role, arrivals: Arrivals,
                                        k: nat, polls: nat)
    requires forall j :: 0 <= j < k ==> !HasAgreement(InboxAt(b, life, inbox, arrivals, j), opponent)
    ensures var found := Await(b, life, InboxAt(b, life, inbox, arrivals, k), opponent, arrivals, k, polls).1;
            if found.None? then
              forall j :: k <= j < k + polls ==> !HasAgreement(InboxAt(b, life, inbox, arrivals, j), opponent)
            else exists j :: k <= j < k + polls && TakenAt(b, life, inbox, opponent, arrivals, j, found)
    decreases polls
  {
    hide HandleAll, State.Pop;
    if polls > 0 {
      var now := InboxAt(b, life, inbox, arrivals, k);
      PopRemovesFirstMatch(now, IsOpponentAgreement(opponent));
      assert forall m: AuditMessage :: IsOpponentAgreement(opponent)(m) <==> AgreesFrom(m, opponent);
      if now.Pop(IsOpponentAgreement(opponent)).1.Some? {
        assert TakenAt(b, life, inbox, opponent, arrivals, k, now.Pop(IsOpponentAgreement(opponent)).1);
      } else {
        AwaitIsExact(b, life, inbox, opponent, arrivals, k + 1, polls - 1);
      }
    }
  }

  /** A technical loss keeps its own totals and status; a completed series takes the verdict. */
  function Certified(s: Series, verdict: FinalAgreement): Series {
    if !s.reason.Completed? then s
    else s.(police := verdict.police, thief := verdict.thief, agreed := verdict.agreed, status := verdict.status)
  }

  method ReceiveAll(router: TurnRouter, batch: seq<AuditIncoming>)
    modifies router.auditInbox
    ensures router.auditInbox.View() == HandleAll(router.binding, router.CurrentLife(), old(router.auditInbox.View()),
                                                  batch)
  {
    for i := 0 to |batch|
      invariant router.auditInbox.View() == HandleAll(router.binding, router.CurrentLife(),
                                                      old(router.auditInbox.View()), batch[..i])
    {
      var ack := router.HandleAuditMessage(batch[i]);
      assert batch[..i + 1][..i] == batch[..i];
    }
    assert batch[..|batch|] == batch;
  }

  method AwaitOpponentAgreement(router: TurnRouter, opponent: Role, arrivals: Arrivals, attempts: nat)
    returns (found: Option<AuditMessage>)
    modifies router.auditInbox
    ensures (router.auditInbox.View(), found)
         == Await(router.binding, router.CurrentLife(), old(router.auditInbox.View()), opponent, arrivals, 0, attempts)
  {
    hide HandleAll, State.Pop;
    ghost var b, life, start := router.binding, router.CurrentLife(), router.auditInbox.View();
    for k := 0 to attempts
      invariant Await(b, life, start, opponent, arrivals, 0, attempts)
             == Await(b, life, router.auditInbox.View(), opponent, arrivals, k, attempts - k)
    {
      PopRemovesFirstMatch(router.auditInbox.View(), IsOpponentAgreement(opponent));
      found := router.auditInbox.PopMatching(IsOpponentAgreement(opponent));
      if found.Some? {
        return;
      }
      ReceiveAll(router, arrivals(k));
    }
    found := None;
  }

  /** The opponent's message reports the same number of games with the same digest. */
  ghost predicate ReportsTheGames(d: Dict, games: seq<GameRecord>) {
    && HoldsNumber(d, NUM_SUB_GAMES, |games|)
    && RESULT_DIGEST in d && d[RESULT_DIGEST] == ResultDigest(games)
  }

  /** The final series against what was found. It is agreed exactly on a message with the same games,
      digest and both totals; left unverified exactly on no message, or on one with the same games and
      digest in which a total is missing; disputed, with both totals zero, on any other message; and
      nothing but the totals and the status ever changes. */
  ghost predicate Settles(s: Series, found: Option<AuditMessage>, final: Series) {
    && final == s.(police := final.police, thief := final.thief, agreed := final.agreed, status := final.status)
    && (final.agreed <==> final.status.Agreed?)
    && (final.police, final.thief) == (if final.status.DisputedZeroed? then (0, 0) else (s.police, s.thief))
    && match found
       case None => final.status.UnverifiedSelfPlay?
       case Some(m) =>
         var d: Dict := if m.body.Obj? then m.body.fields else map[];
         && (final.status.Agreed? <==>
               && ReportsTheGames(d, s.games)
               && HoldsNumber(d, POLICE_TOTAL, s.police) && HoldsNumber(d, THIEF_TOTAL, s.thief))
         && (final.status.UnverifiedSelfPlay? <==>
               ReportsTheGames(d, s.games) && (Silent(d, POLICE_TOTAL) || Silent(d, THIEF_TOTAL)))
  }

  lemma NumberIsHeld(m: AuditMessage, f: Field, i: int)
    ensures Comparable(FieldOf(m, f)) == Comparable(Int(i)) <==> HoldsNumber(Fields(m), f, i)
    ensures FieldOf(m, f).Null? <==> Silent(Fields(m), f)
  {
  }

  lemma CertifiedSettles(s: Series, me: Side, found: Option<AuditMessage>)
    requires me.games == s.games && me.police == s.police && me.thief == s.thief && s.reason.Completed?
    ensures Settles(s, found, Certified(s, Decide(me, found)))
  {
    hide ResultDigest, Comparable, HoldsNumber, Silent;
    if found.Some? {
      NumberIsHeld(found.value, NUM_SUB_GAMES, |me.games|);
      NumberIsHeld(found.value, POLICE_TOTAL, me.police);
      NumberIsHeld(found.value, THIEF_TOTAL, me.thief);
      DigestIsNotNull(me.games);
      HeldIsNotSilent(Fields(found.value), POLICE_TOTAL, me.police);
      HeldIsNotSilent(Fields(found.value), THIEF_TOTAL, me.thief);
    }
  }

  lemma HeldIsNotSilent(d: Dict, f: Field, i: int)
    ensures HoldsNumber(d, f, i) ==> !Silent(d, f)
  {
  }

  lemma DigestIsNotNull(games: seq<GameRecord>)
    ensures ResultDigest(games) != Null
  {
    hide Rows, ByNumber;
  }

  /** `finalize_series_agreement`; the own message is sent first, and what becomes of it there is the
      other peer's business. */
  method FinalizeSeriesAgreement(s: Series, router: TurnRouter, me: Side, arrivals: Arrivals, attempts: nat)
    returns (final: Series)
    requires me.games == s.games && me.police == s.police && me.thief == s.thief
    modifies router.auditInbox
    ensures !s.reason.Completed? ==> final == s && router.auditInbox.View() == old(router.auditInbox.View())
    ensures s.reason.Completed? ==>
              var found := Await(router.binding, router.CurrentLife(), old(router.auditInbox.View()),
                                 me.role.Opponent(), arrivals, 0, attempts).1;
              final == Certified(s, Decide(me, found)) && Settles(s, found, final)
  {
    hide Decide, Certified, Settles;
    if !s.reason.Completed? {
      return s;
    }
    var theirs := AwaitOpponentAgreement(router, me.role.Opponent(), arrivals, attempts);
    CertifiedSettles(s, me, theirs);
    final := Certified(s, Decide(me, theirs));
  }

  /** Against an honest opponent a completed series is agreed, with its own totals, exactly when both
      sides have the same games and totals; otherwise it is disputed and both totals are zero. */
  lemma HonestMessagesSettle(s: Series, other: Side, final: Series)
    requires Numbered(s.games) && Numbered(other.games)
    requires Settles(s, Some(AgreementMessage(other)), final)
    ensures var same := SameGames(s.games, other.games) && s.police == other.police && s.thief == other.thief;
            && final.status == (if same then Agreed else DisputedZeroed) && final.agreed == same
            && final.police == (if same then s.police else 0) && final.thief == (if same then s.thief else 0)
            && final.games == s.games && final.runs == s.runs && final.reason == s.reason
            && final.finalState == s.finalState
  {
    hide ResultDigest, SameGames;
    DigestIsExact(s.games, other.games);
    SentFields(other);
    if SameGames(s.games, other.games) {
      assert |s.games| == |other.games| by { SameLength(s.games, other.games); }
    }
  }

  lemma SameLength(a: seq<GameRecord>, b: seq<GameRecord>)
    requires SameGames(a, b)
    ensures |a| == |b|
  {
  }

  /** What an agreement message says, and for which game. */
  lemma SentFields(me: Side)
    ensures var m := AgreementMessage(me);
            && m.atype.ResultAgreement? && m.sender == me.role && m.gameUid == me.gameUid && m.subGame == 0
            && m.config == Some(me.config)
            && m.body.Obj?
            && POLICE_TOTAL in m.body.fields && m.body.fields[POLICE_TOTAL] == Int(me.police)
            && THIEF_TOTAL in m.body.fields && m.body.fields[THIEF_TOTAL] == Int(me.thief)
            && NUM_SUB_GAMES in m.body.fields && m.body.fields[NUM_SUB_GAMES] == Int(|me.games|)
            && RESULT_DIGEST in m.body.fields && m.body.fields[RESULT_DIGEST] == ResultDigest(me.games)
  {
    hide ResultDigest;
    assert "police_total" != "thief_total" && "num_sub_games"[0] != "result_digest"[0];
  }

  // ----- Two peers -----

  datatype Phase = Sending | Waiting(left: nat) | Resolved(theirs: Option<AuditMessage>, outcome: FinalAgreement)

  /** `accepted` counts the agreement messages this peer's router ever enqueued. */
  datatype Peer = Peer(phase: Phase, inbox: Audits, accepted: nat)

  datatype Setup = Setup(a: Side, b: Side, attempts: nat)

  datatype World = World(a: Peer, b: Peer)

  /** A copy of the sender's message reaches the opponent; the sender stops sending; a peer polls
      once; or some other audit message arrives. */
  datatype Action =
    | Transmit(byA: bool, life: Life)
    | StopSending(byA: bool)
    | Poll(byA: bool)
    | OtherAudit(toA: bool, life: Life, incoming: AuditIncoming)

  function Expecting(s: Side): Binding {
    Binding(s.gameUid, s.role, s.config)
  }

  function Receive(from: Side, life: Life, q: Peer, incoming: AuditIncoming): Peer {
    var (inbox, ack) := HandleAudit(Expecting(from), life, q.inbox, incoming);
    Peer(q.phase, inbox, if ack.Ok? && incoming.message.atype.ResultAgreement? then q.accepted + 1 else q.accepted)
  }

  function PollOnce(me: Side, other: Side, p: Peer): Peer {
    if !p.phase.Waiting? then p
    else if p.phase.left == 0 then p.(phase := Resolved(None, Decide(me, None)))
    else
      var (inbox, found) := p.inbox.Pop(IsOpponentAgreement(other.role));
      p.(inbox := inbox, phase := if found.Some? then Resolved(found, Decide(me, found)) else Waiting(p.phase.left - 1))
  }

  predicate IsAgreement(incoming: AuditIncoming) {
    incoming.AuditWire? && incoming.message.atype.ResultAgreement?
  }

  function Next(su: Setup, w: World, act: Action): World {
    match act
    case Transmit(byA, life) =>
      if byA then
        (if w.a.phase.Sending? then w.(b := Receive(su.a, life, w.b, AuditWire(AgreementMessage(su.a)))) else w)
      else if w.b.phase.Sending? then w.(a := Receive(su.b, life, w.a, AuditWire(AgreementMessage(su.b)))) else w
    case StopSending(byA) =>
      if byA then (if w.a.phase.Sending? then w.(a := w.a.(phase := Waiting(su.attempts))) else w)
      else if w.b.phase.Sending? then w.(b := w.b.(phase := Waiting(su.attempts))) else w
    case Poll(byA) => if byA then w.(a := PollOnce(su.a, su.b, w.a)) else w.(b := PollOnce(su.b, su.a, w.b))
    case OtherAudit(toA, life, incoming) =>
      if IsAgreement(incoming) then w
      else if toA then w.(a := Receive(su.b, life, w.a, incoming)) else w.(b := Receive(su.a, life, w.b, incoming))
  }

  function Play(su: Setup, w: World, schedule: seq<Action>): World
    decreases |schedule|
  {
    if schedule == [] then w else Play(su, Next(su, w, schedule[0]), schedule[1..])
  }

  function FreshPeer(capacity: int): Peer {
    Peer(Sending, State([], capacity, map[], map[]), 0)
  }

  const AGREEMENT_KEY := AuditKey(0, ResultAgreement)

  /** The only agreement message a peer ever holds or decides on is the other's own, and at most one
      is ever accepted. */
  ghost predicate Honest(me: Side, other: Side, p: Peer) {
    && (forall i :: 0 <= i < |p.inbox.queue| && p.inbox.queue[i].message.atype.ResultAgreement? ==>
         p.inbox.queue[i].message == AgreementMessage(other))
    && (AGREEMENT_KEY in p.inbox.byKey ==> p.inbox.byKey[AGREEMENT_KEY] == AgreementMessage(other))
    && p.accepted <= 1 && (p.accepted == 1 ==> AGREEMENT_KEY in p.inbox.byKey)
    && (p.phase.Resolved? ==>
         && (p.phase.theirs.Some? ==> p.phase.theirs.value == AgreementMessage(other))
         && p.phase.outcome == Decide(me, p.phase.theirs))
  }

  lemma ReceiveKeepsHonest(me: Side, other: Side, life: Life, p: Peer, incoming: AuditIncoming)
    requires Honest(me, other, p) && (IsAgreement(incoming) ==> incoming == AuditWire(AgreementMessage(other)))
    ensures Honest(me, other, Receive(other, life, p, incoming))
  {
    hide Decide, ResultDigest, BindingReason;
  }

  lemma PollKeepsHonest(me: Side, other: Side, p: Peer)
    requires Honest(me, other, p)
    ensures Honest(me, other, PollOnce(me, other, p))
  {
    hide Decide, AgreementMessage;
    PopRemovesFirstMatch(p.inbox, IsOpponentAgreement(other.role));
  }

  ghost predicate BothHonest(su: Setup, w: World) {
    Honest(su.a, su.b, w.a) && Honest(su.b, su.a, w.b)
  }

  lemma NextKeepsHonest(su: Setup, w: World, act: Action)
    requires BothHonest(su, w)
    ensures BothHonest(su, Next(su, w, act))
  {
    hide Receive, PollOnce, Decide, AgreementMessage;
    match act {
      case Transmit(byA, life) =>
        if byA {
          ReceiveKeepsHonest(su.b, su.a, life, w.b, AuditWire(AgreementMessage(su.a)));
        } else {
          ReceiveKeepsHonest(su.a, su.b, life, w.a, AuditWire(AgreementMessage(su.b)));
        }
      case StopSending(byA) =>
      case Poll(byA) =>
        PollKeepsHonest(su.a, su.b, w.a);
        PollKeepsHonest(su.b, su.a, w.b);
      case OtherAudit(toA, life, incoming) =>
        if !IsAgreement(incoming) {
          ReceiveKeepsHonest(su.a, su.b, life, w.a, incoming);
          ReceiveKeepsHonest(su.b, su.a, life, w.b, incoming);
        }
    }
  }

  lemma {:induction false} PlayKeepsHonest(su: Setup, w: World, schedule: seq<Action>)
    requires BothHonest(su, w)
    ensures BothHonest(su, Play(su, w, schedule))
    decreases |schedule|
  {
    hide BothHonest, Next;
    if schedule != [] {
      NextKeepsHonest(su, w, schedule[0]);
      PlayKeepsHonest(su, Next(su, w, schedule[0]), schedule[1..]);
    }
  }

  ghost predicate Certifies(p: Peer) {
    p.phase.Resolved? && p.phase.outcome.status.Agreed?
  }

  ghost predicate Disputes(p: Peer) {
    p.phase.Resolved? && p.phase.outcome.status.DisputedZeroed?
  }

  /** Bilateral agreement is consistent, in every interleaving, with any messages lost, repeated or
      refused: one peer never certifies what the other disputes; a peer certifies only an identical
      result; two peers that received each other's message reach the same verdict and totals, and
      certify exactly the identical results; and each peer accepts at most one agreement message. */
  lemma AgreementIsConsistent(su: Setup, capacityA: int, capacityB: int, schedule: seq<Action>)
    ensures var w := Play(su, World(FreshPeer(capacityA), FreshPeer(capacityB)), schedule);
            && !(Certifies(w.a) && Disputes(w.b)) && !(Disputes(w.a) && Certifies(w.b))
            && (Certifies(w.a) || Certifies(w.b) ==> SameResult(su.a, su.b))
            && (w.a.phase.Resolved? && w.a.phase.theirs.Some? && w.b.phase.Resolved? && w.b.phase.theirs.Some? ==>
                  && w.a.phase.outcome == w.b.phase.outcome
                  && (Certifies(w.a) <==> SameResult(su.a, su.b)) && (Disputes(w.a) <==> !Certifies(w.a)))
            && w.a.accepted <= 1 && w.b.accepted <= 1
  {
    hide Play, Decide, AgreementMessage, ResultDigest;
    var w0 := World(FreshPeer(capacityA), FreshPeer(capacityB));
    PlayKeepsHonest(su, w0, schedule);
    DecideOnHonest(su.a, su.b);
    DecideOnHonest(su.b, su.a);
    DecideAlone(su.a);
    DecideAlone(su.b);
    var w := Play(su, w0, schedule);
    assert Honest(su.a, su.b, w.a) && Honest(su.b, su.a, w.b);
    if w.a.phase.Resolved? {
      OutcomeForms(su.a, su.b, w.a);
    }
    if w.b.phase.Resolved? {
      OutcomeForms(su.b, su.a, w.b);
    }
  }

  lemma OutcomeForms(me: Side, other: Side, p: Peer)
    requires Honest(me, other, p) && p.phase.Resolved?
    ensures p.phase.outcome == Decide(me, if p.phase.theirs.None? then None else Some(AgreementMessage(other)))
  {
    hide Decide, AgreementMessage;
  }

  lemma DecideAlone(me: Side)
    ensures Decide(me, None) == FinalAgreement(false, UnverifiedSelfPlay, me.police, me.thief)
  {
  }

  /** Certified totals belong to identical games. */
  lemma AgreedMeansIdenticalGames(su: Setup, capacityA: int, capacityB: int, schedule: seq<Action>)
    requires Numbered(su.a.games) && Numbered(su.b.games)
    ensures var w := Play(su, World(FreshPeer(capacityA), FreshPeer(capacityB)), schedule);
            Certifies(w.a) || Certifies(w.b) ==>
              && |su.a.games| == |su.b.games|
              && forall i :: 0 <= i < |su.a.games| ==>
                   su.a.games[i] == su.b.games[i].(auditVerified := su.a.games[i].auditVerified)
  {
    hide Play, ResultDigest;
    AgreementIsConsistent(su, capacityA, capacityB, schedule);
    if SameResult(su.a, su.b) {
      DigestDeterminesGames(su.a.games, su.b.games);
    }
  }

  /** The series that two peers end up with after any play of the exchange: never agreed on one side
      and disputed on the other; and when both received the other's message, equally settled, with
      equal totals, and agreed exactly when games and totals are the same. */
  lemma FinalSeriesAreConsistent(su: Setup, capacityA: int, capacityB: int, schedule: seq<Action>, a: Series, b: Series,
                                 finalA: Series, finalB: Series)
    requires Numbered(su.a.games) && Numbered(su.b.games)
    requires a.games == su.a.games && a.police == su.a.police && a.thief == su.a.thief
    requires b.games == su.b.games && b.police == su.b.police && b.thief == su.b.thief
    requires var w := Play(su, World(FreshPeer(capacityA), FreshPeer(capacityB)), schedule);
             && w.a.phase.Resolved? && Settles(a, w.a.phase.theirs, finalA)
             && w.b.phase.Resolved? && Settles(b, w.b.phase.theirs, finalB)
    ensures !(finalA.agreed && finalB.status.DisputedZeroed?) && !(finalA.status.DisputedZeroed? && finalB.agreed)
    ensures var w := Play(su, World(FreshPeer(capacityA), FreshPeer(capacityB)), schedule);
            w.a.phase.theirs.Some? && w.b.phase.theirs.Some? ==>
              && finalA.status == finalB.status && finalA.police == finalB.police && finalA.thief == finalB.thief
              && (finalA.agreed <==> SameGames(a.games, b.games) && a.police == b.police && a.thief == b.thief)
  {
    hide Play, SameGames, Settles, AgreementMessage;
    var w0 := World(FreshPeer(capacityA), FreshPeer(capacityB));
    PlayKeepsHonest(su, w0, schedule);
    var w := Play(su, w0, schedule);
    assert Honest(su.a, su.b, w.a) && Honest(su.b, su.a, w.b);
    SettledForms(a, su.b, w.a.phase.theirs, finalA);
    SettledForms(b, su.a, w.b.phase.theirs, finalB);
    SameGamesSymmetric(a.games, b.games);
  }

  lemma SameGamesSymmetric(a: seq<GameRecord>, b: seq<GameRecord>)
    ensures SameGames(a, b) == SameGames(b, a)
  {
  }

  lemma SettledForms(s: Series, other: Side, theirs: Option<AuditMessage>, final: Series)
    requires Numbered(s.games) && Numbered(other.games)
    requires theirs.Some? ==> theirs.value == AgreementMessage(other)
    requires Settles(s, theirs, final)
    ensures var same := SameGames(s.games, other.games) && s.police == other.police && s.thief == other.thief;
            && final.status == (if theirs.None? then UnverifiedSelfPlay else if same then Agreed else DisputedZeroed)
            && (final.agreed <==> final.status.Agreed?)
            && (theirs.Some? ==> final.police == (if same then s.police else 0)
                                 && final.thief == (if same then s.thief else 0))
  {
    hide SameGames, AgreementMessage;
    if theirs.Some? {
      HonestMessagesSettle(s, other, final);
    }
  }

  /** A live, empty peer takes the other's message, and its first poll then finds it. */
  lemma MessageArrives(from: Side, me: Side, capacity: int, phase: Phase, life: Life)
    requires !DeadForAudit(life)
    ensures var q := Receive(from, life, FreshPeer(capacity).(phase := phase), AuditWire(AgreementMessage(from)));
            && q.phase == phase && q.accepted == 1
            && q.inbox.Pop(IsOpponentAgreement(from.role)).1 == Some(AgreementMessage(from))
  {
    hide ResultDigest;
  }

  /** Each message delivered once, then one poll on each side. */
  const EXCHANGE: seq<Action> := [
    Transmit(true, None), Transmit(false, None), StopSending(true), StopSending(false), Poll(true), Poll(false)]

  /** Agreement is reachable: after six actions both peers are settled, each on the other's message. */
  lemma AgreementIsReachable(su: Setup, capacityA: int, capacityB: int)
    requires su.attempts >= 1
    ensures var w := Play(su, World(FreshPeer(capacityA), FreshPeer(capacityB)), EXCHANGE);
            && w.a.phase.Resolved? && w.a.phase.theirs == Some(AgreementMessage(su.b))
            && w.b.phase.Resolved? && w.b.phase.theirs == Some(AgreementMessage(su.a))
            && (Certifies(w.a) <==> SameResult(su.a, su.b)) && (Certifies(w.b) <==> SameResult(su.a, su.b))
  {
    hide Play, Decide, AgreementMessage, ResultDigest, Receive;
    var w0 := World(FreshPeer(capacityA), FreshPeer(capacityB));
    MessageArrives(su.a, su.b, capacityB, Sending, None);
    MessageArrives(su.b, su.a, capacityA, Sending, None);
    var w1 := Next(su, w0, Transmit(true, None));
    var w2 := Next(su, w1, Transmit(false, None));
    var w3 := Next(su, w2, StopSending(true));
    var w4 := Next(su, w3, StopSending(false));
    var w5 := Next(su, w4, Poll(true));
    var w6 := Next(su, w5, Poll(false));
    PlaySix(su, w0);
    DecideOnHonest(su.a, su.b);
    DecideOnHonest(su.b, su.a);
  }

  lemma PlaySix(su: Setup, w: World)
    ensures Play(su, w, EXCHANGE)
         == Next(su, Next(su, Next(su, Next(su, Next(su, Next(su, w, EXCHANGE[0]), EXCHANGE[1]), EXCHANGE[2]),
                                   EXCHANGE[3]), EXCHANGE[4]), EXCHANGE[5])
  {
    hide Next;
    PlayFrom(su, w, EXCHANGE, 0);
    var a := Next(su, w, EXCHANGE[0]);
    PlayFrom(su, a, EXCHANGE, 1);
    var b := Next(su, a, EXCHANGE[1]);
    PlayFrom(su, b, EXCHANGE, 2);
    var c := Next(su, b, EXCHANGE[2]);
    PlayFrom(su, c, EXCHANGE, 3);
    var d := Next(su, c, EXCHANGE[3]);
    PlayFrom(su, d, EXCHANGE, 4);
    var e := Next(su, d, EXCHANGE[4]);
    PlayFrom(su, e, EXCHANGE, 5);
    assert EXCHANGE[6..] == [] && EXCHANGE[0..] == EXCHANGE;
  }

  lemma PlayFrom(su: Setup, w: World, schedule: seq<Action>, i: nat)
    requires i < |schedule|
    ensures Play(su, w, schedule[i..]) == Play(su, Next(su, w, schedule[i]), schedule[i + 1..])
  {
    hide Next;
    assert schedule[i..][1..] == schedule[i + 1..];
  }
}
