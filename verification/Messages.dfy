/** Wire messages: their kinds, keys and the builders of the outgoing turn
    (protocol/turn_message.py, services/turn_messages.py). */
module Messages {
  import opened Options
  import opened Json
  import opened Inbox

  datatype Role = Police | Thief {
    function Opponent(): Role {
      if Police? then Thief else Police
    }
  }

  datatype MessageType =
    | Commitment | Reveal | CommitAck | Hint | Scent | Barrier | CaptureClaim | CaptureResponse

  predicate IsCore(t: MessageType) {
    t.Commitment? || t.Reveal?
  }

  datatype Message = Message(mtype: MessageType, sender: Role, gameUid: string, subGame: int, step: int,
                             sequenceId: int, correlation: CorrelationId, config: Option<string>, body: Json)

  /** What arrives at the tool: something structurally malformed, or a message. */
  datatype Incoming = Garbage | Wire(message: Message)

  /** `structural_reason` accepts the message: its reveal payload, if it is one, is an object. */
  predicate WellFormed(m: Incoming) {
    m.Wire? && (m.message.mtype.Reveal? ==> m.message.body.Obj?)
  }

  /** `f"{sub_game}:{step}:{mtype}"` */
  datatype Key = Key(subGame: int, step: int, mtype: MessageType)

  function KeyOf(m: Message): Key {
    Key(m.subGame, m.step, m.mtype)
  }

  /** The position of a core message in its sub-game's stream. */
  function StreamIndex(step: int, t: MessageType): int
    requires IsCore(t)
  {
    if t.Commitment? then 2 * step else 2 * step + 1
  }

  /** Who sends, in which game, under which agreed configuration. */
  datatype Session = Session(role: Role, gameUid: string, config: string)

  function CommitmentMessage(s: Session, subGame: int, step: int, commitHash: Json): Message {
    Message(Commitment, s.role, s.gameUid, subGame, step, 2 * step, Id("commit", subGame, step), Some(s.config),
            commitHash)
  }

  function RevealMessage(s: Session, subGame: int, step: int, payload: Dict): Message {
    Message(Reveal, s.role, s.gameUid, subGame, step, 2 * step + 1, Id("reveal", subGame, step), Some(s.config),
            Obj(payload))
  }

  /** The k-th core message a peer sends in one sub-game, whatever its turns contain. */
  function StreamMessage(s: Session, subGame: int, hashes: nat -> Json, payloads: nat -> Dict, k: nat): Message {
    if k % 2 == 0 then CommitmentMessage(s, subGame, k / 2, hashes(k / 2))
    else RevealMessage(s, subGame, k / 2, payloads(k / 2))
  }

  /** The k-th message is the commitment or the reveal of step k/2, with the hash or the payload of that
      step, from the own role in the own game under the agreed configuration. */
  lemma StreamContents(s: Session, subGame: int, hashes: nat -> Json, payloads: nat -> Dict, step: nat)
    ensures var commitment := StreamMessage(s, subGame, hashes, payloads, 2 * step);
            var reply := StreamMessage(s, subGame, hashes, payloads, 2 * step + 1);
            && commitment.mtype == Commitment && commitment.body == hashes(step)
            && reply.mtype == Reveal && reply.body == Obj(payloads(step))
            && commitment.sender == reply.sender == s.role && commitment.gameUid == reply.gameUid == s.gameUid
            && commitment.subGame == reply.subGame == subGame && commitment.step == reply.step == step
            && commitment.config == reply.config == Some(s.config)
  {
    assert (2 * step) / 2 == step && (2 * step + 1) / 2 == step;
  }

  /** The numbering the builders stamp is the position in the stream, strictly increasing, and the
      keys and correlation ids along the stream are pairwise distinct. */
  lemma StreamNumbering(s: Session, subGame: int, hashes: nat -> Json, payloads: nat -> Dict, j: nat, k: nat)
    ensures var m := StreamMessage(s, subGame, hashes, payloads, k);
            IsCore(m.mtype) && m.sequenceId == k == StreamIndex(m.step, m.mtype) && WellFormed(Wire(m))
    ensures var m, n := StreamMessage(s, subGame, hashes, payloads, j), StreamMessage(s, subGame, hashes, payloads, k);
            j != k ==> KeyOf(m) != KeyOf(n) && m.correlation != n.correlation
  {
    assert k == 2 * (k / 2) + k % 2 && j == 2 * (j / 2) + j % 2;
  }
}
