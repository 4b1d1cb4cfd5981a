/** The per-step guard of the commit, acknowledge, reveal order (domain/sealing/exchange.py). */
module Exchange {
  import opened Options
  import opened Json
  import opened Sealing

  datatype Phase = Committed | Acknowledged | Revealed

  datatype Tracker = Tracker(phase: map<int, Phase>, hashes: map<int, Json>, records: map<int, SealedRecord>)

  const EMPTY := Tracker(map[], map[], map[])

  datatype Op = Commit(step: int, hash: Json) | Acknowledge(step: int) | Reveal(step: int, record: SealedRecord)

  /** None where the original raises; a repeated identical commitment is accepted silently. */
  function Apply(t: Tracker, op: Op): Option<Tracker> {
    match op
    case Commit(step, hash) =>
      if step in t.hashes then (if t.hashes[step] == hash then Some(t) else None)
      else Some(t.(hashes := t.hashes[step := hash], phase := t.phase[step := Committed]))
    case Acknowledge(step) =>
      if step in t.phase && t.phase[step].Committed? then Some(t.(phase := t.phase[step := Acknowledged])) else None
    case Reveal(step, record) =>
      if step !in t.phase || !t.phase[step].Acknowledged? then None
      else if step !in t.hashes || CommitHash(record.payload) != t.hashes[step] then None
      else Some(t.(phase := t.phase[step := Revealed], records := t.records[step := record]))
  }

  /** Refused operations change nothing. */
  function After(t: Tracker, op: Op): Tracker {
    match Apply(t, op) case Some(next) => next case None => t
  }

  function Run(t: Tracker, ops: seq<Op>): Tracker {
    if ops == [] then t else After(Run(t, ops[..|ops| - 1]), ops[|ops| - 1])
  }

  /** Every step with a phase has a published hash and conversely; exactly the revealed steps have a
      record, and it hashes to the commitment. */
  ghost predicate Sound(t: Tracker) {
    && t.phase.Keys == t.hashes.Keys
    && (forall s :: s in t.records <==> s in t.phase && t.phase[s].Revealed?)
    && (forall s :: s in t.records ==> s in t.hashes && CommitHash(t.records[s].payload) == t.hashes[s])
  }

  /** History is never rewritten: hashes and revealed records of `t` are those of `u`. */
  ghost predicate Extends(t: Tracker, u: Tracker) {
    && (forall s :: s in t.hashes ==> s in u.hashes && u.hashes[s] == t.hashes[s])
    && (forall s :: s in t.records ==> s in u.records && u.records[s] == t.records[s])
  }

  lemma StepFacts(t: Tracker, op: Op)
    requires Sound(t)
    ensures Sound(After(t, op)) && Extends(t, After(t, op))
  {
    hide CommitHash;
  }

  /** Over any sequence of operations, in any order: what is revealed for a step is the preimage of
      the first hash committed for it, and neither ever changes afterwards. */
  lemma {:induction false} RevealsMatchFirstCommitment(t: Tracker, ops: seq<Op>)
    requires Sound(t)
    ensures Sound(Run(t, ops)) && Extends(t, Run(t, ops))
    decreases |ops|
  {
    hide Apply, After, Sound;
    if ops != [] {
      RevealsMatchFirstCommitment(t, ops[..|ops| - 1]);
      StepFacts(Run(t, ops[..|ops| - 1]), ops[|ops| - 1]);
    }
  }

  /** A step is revealed at most once: after its reveal, whatever follows, no acknowledgement and no
      reveal of it is accepted again, and only its own commitment may still be repeated. */
  lemma RevealedOnlyOnce(t: Tracker, ops: seq<Op>, step: int, record: SealedRecord, hash: Json)
    requires Sound(t) && step in t.records
    ensures Apply(Run(t, ops), Reveal(step, record)).None? && Apply(Run(t, ops), Acknowledge(step)).None?
    ensures Apply(Run(t, ops), Commit(step, hash)).Some? <==> hash == t.hashes[step]
  {
    hide Run, CommitHash;
    RevealsMatchFirstCommitment(t, ops);
  }

  class CommitRevealExchange {
    var phase: map<int, Phase>
    var hashes: map<int, Json>
    var records: map<int, SealedRecord>

    function View(): Tracker
      reads this
    {
      Tracker(phase, hashes, records)
    }

    constructor ()
      ensures View() == EMPTY
    {
      phase, hashes, records := map[], map[], map[];
    }

    /** `ok` is false where the original raises. */
    method CommitStep(step: int, hash: Json) returns (ok: bool)
      modifies this
      ensures ok == Apply(old(View()), Commit(step, hash)).Some?
      ensures View() == After(old(View()), Commit(step, hash))
    {
      if step in hashes {
        return hashes[step] == hash;
      }
      hashes := hashes[step := hash];
      phase := phase[step := Committed];
      ok := true;
    }

    method AcknowledgeStep(step: int) returns (ok: bool)
      modifies this
      ensures ok == Apply(old(View()), Acknowledge(step)).Some?
      ensures View() == After(old(View()), Acknowledge(step))
    {
      ok := step in phase && phase[step] == Committed;
      if ok {
        phase := phase[step := Acknowledged];
      }
    }

    method RevealStep(step: int, record: SealedRecord) returns (ok: bool)
      modifies this
      ensures ok == Apply(old(View()), Reveal(step, record)).Some?
      ensures View() == After(old(View()), Reveal(step, record))
    {
      if step !in phase || phase[step] != Acknowledged {
        return false;
      }
      if step !in hashes || CommitHash(record.payload) != hashes[step] {
        return false;
      }
      phase := phase[step := Revealed];
      records := records[step := record];
      ok := true;
    }
  }
}
