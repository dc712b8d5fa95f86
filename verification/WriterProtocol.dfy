/** The writer service as a protocol: concurrent deliveries of approved commands, each a
    coroutine and the writer it drives, over one ledger, with faults and crashes at any step.
    Every ledger transaction, evidence check and native frame is one atomic event. */
module WriterProtocol {
  import opened Common
  import opened Authorization
  import opened CommandLedger
  import opened LedgerHistory

  datatype Config = Config(key: string, writerId: string, retention: Time, opcua: set<string>)

  datatype Request = Request(command: Command, approval: SignedEvidence)

  /** The writer of one attempt. A cancelled delivery can leave its writer running. */
  datatype WriterPc = Idle | Next | Fenced | Marked | Cleared | AwaitAck | Acknowledged | Raised

  datatype HandlerPc = Verified | NeedClaim | Checked | Writing | Broken | Cancelled | Replied(result: WriteResult)

  /** `clearedAt` is the instant of the last evidence check passed right before a frame. */
  datatype Delivery = Delivery(
    command: Command,
    approval: SignedEvidence,
    pc: HandlerPc,
    writer: WriterPc,
    token: Option<Token>,
    sent: nat,
    clearedAt: Time)

  /** One native request on the wire: index 0 is the payload, the last index commits it. */
  datatype Frame = Frame(delivery: nat, digest: Digest, token: Token, index: nat, clearedAt: Time)

  datatype Reply = Reply(command: Option<Command>, result: WriteResult)

  datatype System = System(
    history: History,
    up: bool,
    seen: set<nat>,
    deliveries: map<nat, Delivery>,
    approvals: set<SignedEvidence>,
    frames: seq<Frame>,
    acked: set<Token>,
    replies: map<nat, Reply>)

  datatype Event =
    | Approve(command: Command, now: Time)
    | Arrive(id: nat, request: Option<Request>, now: Time)
    | Lookup(id: nat, now: Time)
    | Reverify(id: nat, now: Time)
    | ClaimAttempt(id: nat, pruneAt: Time, now: Time, minted: Token)
    | Fence(id: nat, now: Time)
    | Mark(id: nat, now: Time)
    | Clear(id: nat, now: Time)
    | Send(id: nat, confirmed: bool)
    | DeviceAck(id: nat)
    | WriterFault(id: nat)
    | RecordFault(id: nat)
    | LedgerFault(id: nat)
    | SettleFailure(id: nat, reason: string, now: Time)
    | Finish(id: nat, writtenAt: Time, now: Time)
    | Cancel(id: nat, ledgerUp: bool, now: Time)
    | GiveUp(id: nat, ledgerUp: bool, now: Time)
    | Crash
    | Restart(readings: map<string, Time>, now: Time)

  const INITIAL := System(EMPTY, false, {}, map[], {}, [], {}, map[])

  /** Native mailboxes take a payload frame and a sequence frame; OPC UA takes one write. */
  function FrameCount(cfg: Config, command: Command): nat {
    if command.target in cfg.opcua then 1 else 2
  }

  predicate Passes(cfg: Config, d: Delivery, now: Time) {
    VerifyEvidence(d.command, d.approval, cfg.key, Approval, cfg.writerId, now, false)
  }

  function Refusal(reason: string): WriteResult {
    WriteResult(NotExecuted, None, reason, false, false)
  }

  function Uncertain(reason: string): WriteResult {
    WriteResult(Indeterminate, None, reason, false, false)
  }

  function Put(s: System, id: nat, d: Delivery): System {
    s.(deliveries := s.deliveries[id := d])
  }

  function Answer(s: System, id: nat, d: Delivery, result: WriteResult): System {
    s.(deliveries := s.deliveries[id := d.(pc := Replied(result))],
       replies := s.replies[id := Reply(Some(d.command), result)])
  }

  // ----- one function for each event -----

  function DoApprove(cfg: Config, s: System, command: Command, now: Time): System {
    s.(history := Advance(s.history, now),
       approvals := s.approvals + {SignApproval(command, cfg.key, cfg.writerId, now, true).value})
  }

  /** Whoever lacks the key can only repeat signatures that were issued. */
  predicate Constructible(cfg: Config, s: System, request: Request) {
    request.approval.signature.key == cfg.key ==>
      exists a :: a in s.approvals && a.signature == request.approval.signature
  }

  function DoArrive(cfg: Config, s: System, id: nat, request: Option<Request>, now: Time): System {
    var t := s.(history := Advance(s.history, now), seen := s.seen + {id});
    if request.None? then t.(replies := t.replies[id := Reply(None, Refusal("malformed"))])
    else
      var r := request.value;
      if VerifyEvidence(r.command, r.approval, cfg.key, Approval, cfg.writerId, now, true)
      then Put(t, id, Delivery(r.command, r.approval, Verified, Idle, None, 0, 0))
      else t.(replies := t.replies[id := Reply(Some(r.command), Refusal("ValueError"))])
  }

  /** The stored row of this command, if there is one, can be read back. */
  predicate Readable(rows: Rows, id: string) {
    id in rows ==> WellFormed(rows[id])
  }

  function DoLookup(s: System, id: nat, d: Delivery, now: Time): System
    requires Readable(s.history.rows, d.command.id)
  {
    var t := s.(history := PruneStep(s.history, now));
    var rows := t.history.rows;
    if d.command.id in rows && !ResultFor(rows[d.command.id], Digest(d.command)).retryable
    then Answer(t, id, d, ResultFor(rows[d.command.id], Digest(d.command)))
    else Put(t, id, d.(pc := NeedClaim))
  }

  function DoReverify(cfg: Config, s: System, id: nat, d: Delivery, now: Time): System {
    var t := s.(history := Advance(s.history, now));
    if Passes(cfg, d, now) then Put(t, id, d.(pc := Checked)) else Answer(t, id, d, Refusal("ValueError"))
  }

  function DoClaim(cfg: Config, s: System, id: nat, d: Delivery, pruneAt: Time, now: Time, minted: Token): System
    requires Readable(s.history.rows, d.command.id)
  {
    var pruned := Prune(s.history.rows, pruneAt);
    var t := s.(history := ClaimStep(s.history, Digest(d.command), cfg.retention, pruneAt, now, minted));
    if Claimable(pruned, Digest(d.command)) then Put(t, id, d.(pc := Writing, writer := Next, token := Some(minted)))
    else Answer(t, id, d, ResultFor(pruned[d.command.id], Digest(d.command)))
  }

  function DoCheck(cfg: Config, s: System, id: nat, d: Delivery, now: Time, passed: WriterPc): System {
    var t := s.(history := Advance(s.history, now));
    if !Passes(cfg, d, now) then Put(t, id, d.(writer := Raised))
    else Put(t, id, d.(writer := passed, clearedAt := if passed == Cleared then now else d.clearedAt))
  }

  function DoMark(s: System, id: nat, d: Delivery, now: Time): System
    requires d.token.Some?
  {
    var t := s.(history := MarkStep(s.history, d.command.id, d.token.value, now));
    Put(t, id, d.(writer := if Holds(s.history.rows, d.command.id, d.token.value) then Marked else Raised))
  }

  function DoSend(cfg: Config, s: System, id: nat, d: Delivery, confirmed: bool): System
    requires d.token.Some?
  {
    var t := s.(frames := s.frames + [Frame(id, Digest(d.command), d.token.value, d.sent, d.clearedAt)]);
    var after := if !confirmed then Raised else if d.sent + 1 < FrameCount(cfg, d.command) then Next else AwaitAck;
    Put(t, id, d.(writer := after, sent := d.sent + 1))
  }

  function DoAck(s: System, id: nat, d: Delivery): System
    requires d.token.Some?
  {
    Put(s.(acked := s.acked + {d.token.value}), id, d.(writer := Acknowledged))
  }

  function DoSettleFailure(cfg: Config, s: System, id: nat, d: Delivery, reason: string, now: Time): System
    requires d.token.Some?
  {
    var t := s.(history := FailStep(s.history, d.command.id, d.token.value, reason, cfg.retention, now));
    if Holds(s.history.rows, d.command.id, d.token.value)
    then Answer(t, id, d, FailedResult(HoldsStarted(s.history.rows, d.command.id, d.token.value), reason))
    else Put(t, id, d.(pc := Broken))
  }

  function DoFinish(cfg: Config, s: System, id: nat, d: Delivery, writtenAt: Time, now: Time): System
    requires d.token.Some?
  {
    var t := s.(history := CompleteStep(s.history, d.command.id, d.token.value, writtenAt, cfg.retention, now));
    if HoldsStarted(s.history.rows, d.command.id, d.token.value) then Answer(t, id, d, CompletedResult(writtenAt))
    else Put(t, id, d.(pc := Broken))
  }

  function DoCancel(cfg: Config, s: System, id: nat, d: Delivery, ledgerUp: bool, now: Time): System
    requires d.token.Some?
  {
    if ledgerUp && Holds(s.history.rows, d.command.id, d.token.value) then
      var t := s.(history := FailStep(s.history, d.command.id, d.token.value, "execution_cancelled", cfg.retention, now));
      Put(t, id, d.(pc := Cancelled))
    else Put(s, id, d.(pc := Broken))
  }

  function DoGiveUp(cfg: Config, s: System, id: nat, d: Delivery, ledgerUp: bool, now: Time): System
    requires d.token.Some?
  {
    var t := if ledgerUp
             then s.(history := FailStep(s.history, d.command.id, d.token.value, "ledger_failure", cfg.retention, now))
             else s;
    Answer(t, id, d, Uncertain("ledger_failure"))
  }

  /** The ledger call this delivery or its writer is about to make raises, changing nothing. */
  function DoLedgerFault(s: System, id: nat, d: Delivery): System {
    if d.pc == Verified || d.pc == Checked then Answer(s, id, d, Uncertain("ledger_unavailable"))
    else if d.writer == Fenced then Put(s, id, d.(writer := Raised))
    else if d.pc == Writing && (d.writer == Raised || d.writer == Acknowledged) then Put(s, id, d.(pc := Broken))
    else s
  }

  /** The evidence journal raises around a native write rather than inside it. */
  function DoRecordFault(s: System, id: nat, d: Delivery): System {
    if d.pc == Writing && d.writer == Next && d.sent == 0 then Put(s, id, d.(pc := Broken, writer := Raised))
    else if d.pc == Writing && d.writer == Acknowledged then Put(s, id, d.(pc := Broken))
    else s
  }

  predicate Running(writer: WriterPc) {
    writer == Next || writer == Fenced || writer == Marked || writer == Cleared || writer == AwaitAck
  }

  // ----- the protocol: an event that is not enabled changes nothing -----

  predicate NotBefore(s: System, now: Time) {
    s.history.clock <= now
  }

  /** A delivery that waits for its ledger row finds it readable. */
  predicate AtLedger(s: System, id: nat, pc: HandlerPc) {
    id in s.deliveries && s.deliveries[id].pc == pc && Readable(s.history.rows, s.deliveries[id].command.id)
  }

  /** A delivery whose writer stands here, with the token it was granted. */
  predicate AtWriter(s: System, id: nat, writer: WriterPc) {
    id in s.deliveries && s.deliveries[id].writer == writer && s.deliveries[id].token.Some?
  }

  predicate Enabled(cfg: Config, s: System, e: Event) {
    && (e.Approve? || e.Restart? || e.Crash? || s.up)
    && match e
       case Approve(_, now) => NotBefore(s, now)
       case Arrive(id, request, now) =>
         NotBefore(s, now) && id !in s.seen && (request.Some? ==> Constructible(cfg, s, request.value))
       case Lookup(id, now) => NotBefore(s, now) && AtLedger(s, id, Verified)
       case Reverify(id, now) => NotBefore(s, now) && id in s.deliveries && s.deliveries[id].pc == NeedClaim
       case ClaimAttempt(id, pruneAt, now, minted) =>
         NotBefore(s, pruneAt) && pruneAt <= now && minted !in s.history.grants && AtLedger(s, id, Checked)
       case Fence(id, now) => NotBefore(s, now) && AtWriter(s, id, Next)
       case Mark(id, now) => NotBefore(s, now) && AtWriter(s, id, Fenced)
       case Clear(id, now) => NotBefore(s, now) && AtWriter(s, id, Marked)
       case Send(id, _) => AtWriter(s, id, Cleared)
       case DeviceAck(id) => AtWriter(s, id, AwaitAck)
       case WriterFault(id) => id in s.deliveries && Running(s.deliveries[id].writer)
       case RecordFault(id) => id in s.deliveries
       case LedgerFault(id) => id in s.deliveries
       case SettleFailure(id, _, now) => NotBefore(s, now) && AtWriter(s, id, Raised) && s.deliveries[id].pc == Writing
       case Finish(id, _, now) => NotBefore(s, now) && AtWriter(s, id, Acknowledged) && s.deliveries[id].pc == Writing
       case Cancel(id, _, now) =>
         NotBefore(s, now) && id in s.deliveries && s.deliveries[id].pc == Writing && s.deliveries[id].token.Some?
       case GiveUp(id, _, now) =>
         NotBefore(s, now) && id in s.deliveries && s.deliveries[id].pc == Broken && s.deliveries[id].token.Some?
       case Crash => true
       case Restart(readings, now) => NotBefore(s, now) && !s.up && ReadingsFit(s.history, readings, now)
  }

  function Step(cfg: Config, s: System, e: Event): System {
    if !Enabled(cfg, s, e) then s
    else match e
         case Approve(command, now) => DoApprove(cfg, s, command, now)
         case Arrive(id, request, now) => DoArrive(cfg, s, id, request, now)
         case Lookup(id, now) => DoLookup(s, id, s.deliveries[id], now)
         case Reverify(id, now) => DoReverify(cfg, s, id, s.deliveries[id], now)
         case ClaimAttempt(id, pruneAt, now, minted) => DoClaim(cfg, s, id, s.deliveries[id], pruneAt, now, minted)
         case Fence(id, now) => DoCheck(cfg, s, id, s.deliveries[id], now, Fenced)
         case Mark(id, now) => DoMark(s, id, s.deliveries[id], now)
         case Clear(id, now) => DoCheck(cfg, s, id, s.deliveries[id], now, Cleared)
         case Send(id, confirmed) => DoSend(cfg, s, id, s.deliveries[id], confirmed)
         case DeviceAck(id) => DoAck(s, id, s.deliveries[id])
         case WriterFault(id) => Put(s, id, s.deliveries[id].(writer := Raised))
         case RecordFault(id) => DoRecordFault(s, id, s.deliveries[id])
         case LedgerFault(id) => DoLedgerFault(s, id, s.deliveries[id])
         case SettleFailure(id, reason, now) => DoSettleFailure(cfg, s, id, s.deliveries[id], reason, now)
         case Finish(id, writtenAt, now) => DoFinish(cfg, s, id, s.deliveries[id], writtenAt, now)
         case Cancel(id, ledgerUp, now) => DoCancel(cfg, s, id, s.deliveries[id], ledgerUp, now)
         case GiveUp(id, ledgerUp, now) => DoGiveUp(cfg, s, id, s.deliveries[id], ledgerUp, now)
         case Crash => s.(up := false, deliveries := map[])
         case Restart(readings, now) =>
           s.(history := RecoverStep(s.history, readings, cfg.retention, now), up := true)
  }
}
