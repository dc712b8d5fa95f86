/** What each delivery is told and when it gets through: the answer to every step by what the step
    finds in the ledger, and the schedule by which a delivery in time completes. */
module WriterProgress {
  import opened Common
  import opened Authorization
  import opened CommandLedger
  import opened LedgerHistory
  import opened WriterProtocol
  import opened WriterSafety
  import opened WriterTheorems

  /** The request carries an approval of exactly its command, issued by this instant. */
  predicate Approved(s: System, r: Request, now: Time) {
    r.approval in s.approvals && r.approval.digest == Digest(r.command) && r.approval.issuedAt <= now
  }

  lemma AuthenticPasses(cfg: Config, r: Request, now: Time, allowExpired: bool)
    requires Authentic(cfg, r.approval)
    ensures VerifyEvidence(r.command, r.approval, cfg.key, Approval, cfg.writerId, now, allowExpired)
       <==> && r.approval.digest == Digest(r.command)
            && r.approval.issuedAt <= now
            && (allowExpired || now <= r.command.deadline)
  {
  }

  /** In every run a request gets past its arrival exactly when it carries an approval of its
      command, before or after the deadline alike; any other is refused and leaves no trace. */
  lemma ApprovedRequestsArrive(cfg: Config, events: seq<Event>, s: System, id: nat, r: Request, now: Time)
    requires cfg.retention > 0 && s == Run(cfg, events) && Enabled(cfg, s, Arrive(id, Some(r), now))
    ensures var n := Step(cfg, s, Arrive(id, Some(r), now));
            if Approved(s, r, now)
            then && n.deliveries == s.deliveries[id := Delivery(r.command, r.approval, Verified, Idle, None, 0, 0)]
                 && n.replies == s.replies
            else && n.deliveries == s.deliveries
                 && n.replies == s.replies[id := Reply(Some(r.command), Refusal("ValueError"))]
  {
    RunIsSafe(cfg, events);
    if Approved(s, r, now) {
      AuthenticPasses(cfg, r, now, true);
    } else if VerifyEvidence(r.command, r.approval, cfg.key, Approval, cfg.writerId, now, true) {
      VerifiedIsApproved(cfg, s, r, now, true);
      AuthenticPasses(cfg, r, now, true);
      assert false;
    }
  }

  /** What cannot be read as a request is refused as not executed and starts nothing. */
  lemma MalformedIsRefused(cfg: Config, s: System, id: nat, now: Time)
    requires Enabled(cfg, s, Arrive(id, None, now))
    ensures var n := Step(cfg, s, Arrive(id, None, now));
            && n.deliveries == s.deliveries && n.history.rows == s.history.rows && n.history.starts == s.history.starts
            && n.replies.Keys == s.replies.Keys + {id}
            && n.replies[id].result.outcome == NotExecuted && !n.replies[id].result.retryable
  {
  }

  /** Whatever the validator signs, it signs for every later delivery. */
  lemma ApprovalsAreIssued(cfg: Config, s: System, command: Command, now: Time, later: Time)
    requires Enabled(cfg, s, Approve(command, now)) && now <= later
    ensures var n := Step(cfg, s, Approve(command, now));
            exists a :: a in n.approvals && Approved(n, Request(command, a), later)
  {
    var a := SignApproval(command, cfg.key, cfg.writerId, now, true).value;
    assert a in Step(cfg, s, Approve(command, now)).approvals;
  }

  // ----- the answers, by the ledger row -----

  /** The row the ledger still holds for this command lets another attempt in. */
  predicate Open(rows: Rows, command: Command, now: Time) {
    !KeptAt(rows, command.id, now)
    || (rows[command.id].digest == Digest(command) && rows[command.id].state == Retryable)
  }

  /** The row stands under this token. */
  predicate HeldBy(rows: Rows, id: string, token: Token) {
    id in rows && rows[id].token == Some(token)
  }

  /** This delivery has just been answered so. */
  predicate Told(n: System, id: nat, d: Delivery, r: WriteResult) {
    && id in n.deliveries && n.deliveries[id] == d.(pc := Replied(r))
    && id in n.replies && n.replies[id] == Reply(Some(d.command), r)
  }

  ghost predicate ToldFrom(n: System, id: nat, d: Delivery, row: Row) {
    exists r :: Tells(row, Digest(d.command), r) && Told(n, id, d, r)
  }

  lemma RunRows(cfg: Config, events: seq<Event>, s: System, id: string)
    requires cfg.retention > 0 && s == Run(cfg, events) && id in s.history.rows
    ensures RowInv(s.history, id, cfg.retention)
  {
    RunIsSafe(cfg, events);
  }

  /** A lookup lets a delivery on exactly when the row still held leaves room for another attempt,
      and otherwise answers from that row. */
  lemma LookupAnswers(cfg: Config, events: seq<Event>, s: System, id: nat, now: Time)
    requires cfg.retention > 0 && s == Run(cfg, events) && Enabled(cfg, s, Lookup(id, now))
    ensures var n := Step(cfg, s, Lookup(id, now));
            var d := s.deliveries[id];
            if Open(s.history.rows, d.command, now)
            then n.deliveries[id] == d.(pc := NeedClaim) && n.replies == s.replies
            else ToldFrom(n, id, d, s.history.rows[d.command.id])
  {
    var d := s.deliveries[id];
    if KeptAt(s.history.rows, d.command.id, now) {
      RunRows(cfg, events, s, d.command.id);
      LookupTells(cfg, s, id, now);
    }
  }

  lemma LookupTells(cfg: Config, s: System, id: nat, now: Time)
    requires Enabled(cfg, s, Lookup(id, now)) && KeptAt(s.history.rows, s.deliveries[id].command.id, now)
    requires RowInv(s.history, s.deliveries[id].command.id, cfg.retention)
    ensures var n := Step(cfg, s, Lookup(id, now));
            var d := s.deliveries[id];
            if Open(s.history.rows, d.command, now)
            then n.deliveries[id] == d.(pc := NeedClaim) && n.replies == s.replies
            else ToldFrom(n, id, d, s.history.rows[d.command.id])
  {
    var d := s.deliveries[id];
    var row := s.history.rows[d.command.id];
    assert Tells(row, Digest(d.command), ResultFor(row, Digest(d.command)));
  }

  /** The second check passes exactly until the deadline. */
  lemma ReverifyAnswers(cfg: Config, events: seq<Event>, s: System, id: nat, now: Time)
    requires cfg.retention > 0 && s == Run(cfg, events) && Enabled(cfg, s, Reverify(id, now))
    ensures var n := Step(cfg, s, Reverify(id, now));
            var d := s.deliveries[id];
            if now <= d.command.deadline
            then n.deliveries[id] == d.(pc := Checked) && n.replies == s.replies
            else Told(n, id, d, WriteResult(NotExecuted, None, "ValueError", false, false))
  {
    StandingApproval(cfg, events, s, id);
    AuthenticPasses(cfg, Request(s.deliveries[id].command, s.deliveries[id].approval), now, false);
  }

  /** The approval of a delivery under way never stops being genuine. */
  lemma StandingApproval(cfg: Config, events: seq<Event>, s: System, id: nat)
    requires cfg.retention > 0 && s == Run(cfg, events) && id in s.deliveries
    ensures var d := s.deliveries[id];
            Authentic(cfg, d.approval) && d.approval.digest == Digest(d.command) && d.approval.issuedAt <= s.history.clock
  {
    RunIsSafe(cfg, events);
    assert DeliveryInv(cfg, s, id, s.deliveries[id]);
  }

  /** A claim is granted exactly when there is no row left under the command's id, or a retryable
      row of this command; otherwise the row answers. */
  lemma ClaimAnswers(cfg: Config, events: seq<Event>, s: System, id: nat, pruneAt: Time, now: Time, minted: Token)
    requires cfg.retention > 0 && s == Run(cfg, events) && Enabled(cfg, s, ClaimAttempt(id, pruneAt, now, minted))
    ensures var n := Step(cfg, s, ClaimAttempt(id, pruneAt, now, minted));
            var d := s.deliveries[id];
            if Open(s.history.rows, d.command, pruneAt)
            then && n.deliveries[id] == d.(pc := Writing, writer := Next, token := Some(minted))
                 && n.replies == s.replies
                 && HeldBy(n.history.rows, d.command.id, minted)
                 && n.history.rows[d.command.id].state == Preparing
                 && n.history.rows[d.command.id].digest == Digest(d.command)
            else ToldFrom(n, id, d, s.history.rows[d.command.id])
  {
    var d := s.deliveries[id];
    if KeptAt(s.history.rows, d.command.id, pruneAt) {
      RunRows(cfg, events, s, d.command.id);
      var row := s.history.rows[d.command.id];
      assert Tells(row, Digest(d.command), ResultFor(row, Digest(d.command)));
    }
  }

  /** A check right before a frame passes exactly until the deadline, and stops the writer after it. */
  lemma ChecksPassInTime(cfg: Config, events: seq<Event>, s: System, e: Event)
    requires cfg.retention > 0 && s == Run(cfg, events) && Enabled(cfg, s, e) && (e.Fence? || e.Clear?)
    ensures var n := Step(cfg, s, e);
            var d := s.deliveries[e.id];
            n.deliveries[e.id].writer == (if e.now > d.command.deadline then Raised else if e.Fence? then Fenced else Cleared)
  {
    StandingApproval(cfg, events, s, e.id);
    AuthenticPasses(cfg, Request(s.deliveries[e.id].command, s.deliveries[e.id].approval), e.now, false);
  }

  /** The ledger records a start exactly when the attempt still holds its row, and a first start
      only once. */
  lemma MarksNeedTheRow(cfg: Config, events: seq<Event>, s: System, id: nat, now: Time)
    requires cfg.retention > 0 && s == Run(cfg, events) && Enabled(cfg, s, Mark(id, now))
    ensures var n := Step(cfg, s, Mark(id, now));
            var d := s.deliveries[id];
            var held := HeldBy(s.history.rows, d.command.id, d.token.value);
            && n.deliveries[id].writer == (if held then Marked else Raised)
            && (held ==> HeldBy(n.history.rows, d.command.id, d.token.value)
                         && n.history.rows[d.command.id].state == Started)
            && n.history.starts == (if held && s.history.rows[d.command.id].state == Preparing
                                    then s.history.starts + [Start(Digest(d.command), d.token.value, now)]
                                    else s.history.starts)
  {
    var d := s.deliveries[id];
    if HeldBy(s.history.rows, d.command.id, d.token.value) {
      RunRows(cfg, events, s, d.command.id);
      TokenNamesCommand(cfg, events, s, id);
    }
  }

  lemma TokenNamesCommand(cfg: Config, events: seq<Event>, s: System, id: nat)
    requires cfg.retention > 0 && s == Run(cfg, events) && id in s.deliveries && s.deliveries[id].token.Some?
    requires HeldBy(s.history.rows, s.deliveries[id].command.id, s.deliveries[id].token.value)
    ensures s.history.rows[s.deliveries[id].command.id].digest == Digest(s.deliveries[id].command)
  {
    RunIsSafe(cfg, events);
    RunRows(cfg, events, s, s.deliveries[id].command.id);
    assert DeliveryInv(cfg, s, id, s.deliveries[id]);
  }

  // ----- how attempts are settled -----

  /** The failed attempt that held this row left it as the source promises: safe to retry if it never
      started, unknown if it did; a row it does not hold is not touched. */
  predicate FailureSettles(rows: Rows, after: Rows, id: string, token: Token, reason: string, keep: Time) {
    if HeldBy(rows, id, token)
    then && id in after && after[id].digest == rows[id].digest && after[id].token == None
         && after[id].keepUntil == Max(rows[id].keepUntil, keep)
         && (rows[id].state == Preparing ==>
               after[id].state == Retryable && after[id].result == Some(WriteResult(NotExecuted, None, reason, true, false)))
         && (rows[id].state == Started ==>
               after[id].state == Unknown && after[id].result == Some(WriteResult(Indeterminate, None, reason, false, false)))
    else after == rows
  }

  /** A failed write is told as safe to retry exactly when it never started, and as unknown when it did. */
  lemma FailuresAreTold(cfg: Config, events: seq<Event>, s: System, id: nat, reason: string, now: Time)
    requires cfg.retention > 0 && s == Run(cfg, events) && Enabled(cfg, s, SettleFailure(id, reason, now))
    ensures var n := Step(cfg, s, SettleFailure(id, reason, now));
            var d := s.deliveries[id];
            && FailureSettles(s.history.rows, n.history.rows, d.command.id, d.token.value, reason, now + cfg.retention)
            && if HeldBy(s.history.rows, d.command.id, d.token.value)
               then Told(n, id, d, n.history.rows[d.command.id].result.value)
               else n.deliveries[id] == d.(pc := Broken)
  {
    var d := s.deliveries[id];
    if d.command.id in s.history.rows {
      RunRows(cfg, events, s, d.command.id);
    }
  }

  /** An acknowledged write is told as completed exactly when its attempt holds a started row, which
      then keeps that answer. */
  lemma CompletionsAreTold(cfg: Config, events: seq<Event>, s: System, id: nat, writtenAt: Time, now: Time)
    requires cfg.retention > 0 && s == Run(cfg, events) && Enabled(cfg, s, Finish(id, writtenAt, now))
    ensures var n := Step(cfg, s, Finish(id, writtenAt, now));
            var d := s.deliveries[id];
            var r := WriteResult(Executed, Some(writtenAt), "", false, false);
            if HeldBy(s.history.rows, d.command.id, d.token.value) && s.history.rows[d.command.id].state == Started
            then && Told(n, id, d, r)
                 && d.command.id in n.history.rows
                 && var row, was := n.history.rows[d.command.id], s.history.rows[d.command.id];
                    row == Row(was.digest, Completed, None, Some(r), was.startedAt, Max(was.keepUntil, now + cfg.retention))
            else n.deliveries[id] == d.(pc := Broken) && n.history.rows == s.history.rows
  {
  }

  /** A delivery that gives up is told that its outcome is unknown, and a cancelled one is told
      nothing; with the ledger in reach either leaves its row as any failure does. */
  lemma AbandonedAttemptsAreSettled(cfg: Config, events: seq<Event>, s: System, e: Event)
    requires cfg.retention > 0 && s == Run(cfg, events) && Enabled(cfg, s, e) && (e.Cancel? || e.GiveUp?)
    ensures var n := Step(cfg, s, e);
            var d := s.deliveries[e.id];
            && (if e.ledgerUp
                then FailureSettles(s.history.rows, n.history.rows, d.command.id, d.token.value,
                                    if e.Cancel? then "execution_cancelled" else "ledger_failure", e.now + cfg.retention)
                else n.history.rows == s.history.rows)
            && (e.GiveUp? ==> Told(n, e.id, d, WriteResult(Indeterminate, None, "ledger_failure", false, false)))
            && (e.Cancel? ==>
                  && n.replies == s.replies
                  && n.deliveries[e.id].pc == (if e.ledgerUp && HeldBy(s.history.rows, d.command.id, d.token.value)
                                               then Cancelled else Broken))
  {
    var d := s.deliveries[e.id];
    if d.command.id in s.history.rows {
      RunRows(cfg, events, s, d.command.id);
    }
  }

  /** A ledger that cannot be reached before the claim leaves the outcome unknown, never refused. */
  lemma UnreachableHistoryIsUncertain(cfg: Config, events: seq<Event>, s: System, id: nat)
    requires s == Run(cfg, events) && Enabled(cfg, s, LedgerFault(id))
    requires s.deliveries[id].pc == Verified || s.deliveries[id].pc == Checked
    ensures Told(Step(cfg, s, LedgerFault(id)), id, s.deliveries[id],
                 WriteResult(Indeterminate, None, "ledger_unavailable", false, false))
  {
  }

  /** A fault at any point of a write stops its writer or leaves its delivery to give up; none of
      them answers by itself. */
  lemma FaultsStopTheWriter(cfg: Config, s: System, e: Event)
    requires Enabled(cfg, s, e)
    requires e.WriterFault? || e.RecordFault? || e.LedgerFault? || (e.Send? && !e.confirmed)
    requires s.deliveries[e.id].pc == Writing
    ensures var n := Step(cfg, s, e);
            var d, after := s.deliveries[e.id], n.deliveries[e.id];
            && n.replies == s.replies
            && (e.WriterFault? || e.Send? || (e.LedgerFault? && d.writer == Fenced) ==> after.writer == Raised)
            && (e.LedgerFault? && (d.writer == Raised || d.writer == Acknowledged) ==> after.pc == Broken)
            && (e.RecordFault? && (d.writer == Acknowledged || (d.writer == Next && d.sent == 0)) ==> after.pc == Broken)
  {
  }

  /** A restart settles every attempt the crash left open, by whether it had started, and keeps every
      row within its keep time. */
  lemma RestartsSettleOpenAttempts(cfg: Config, s: System, readings: map<string, Time>, now: Time)
    requires cfg.retention > 0 && Enabled(cfg, s, Restart(readings, now))
    ensures var n := Step(cfg, s, Restart(readings, now));
            && n.up && n.history.starts == s.history.starts && n.frames == s.frames && n.replies == s.replies
            && (forall k | k in n.history.rows ::
                  && n.history.rows[k].state != Preparing && n.history.rows[k].state != Started
                  && k in s.history.rows && Recovers(s.history.rows[k], n.history.rows[k]))
            && (forall k | k in s.history.rows && now <= s.history.rows[k].keepUntil :: k in n.history.rows)
  {
    RecoveryClosesEveryAttempt(s.history, readings, cfg.retention, now);
  }

  lemma CrashesEndDeliveries(cfg: Config, s: System)
    ensures var n := Step(cfg, s, Crash); !n.up && n.deliveries == map[] && n.history == s.history && n.replies == s.replies
  {
  }

  // ----- told again -----

  /** Until the retention after its deadline has passed, every further request for an initiated
      command that carries an approval of it is told on arrival and lookup what became of it:
      neither refused, nor in conflict, nor let through, before and after the deadline alike. */
  lemma InitiationsAreReported(cfg: Config, events: seq<Event>, x: Start, id: nat, r: Request, at: Time, now: Time,
                               s: System, n: System)
    requires cfg.retention > 0 && s == Run(cfg, events) && x in s.history.starts
    requires Enabled(cfg, s, Arrive(id, Some(r), at)) && Approved(s, r, at)
    requires Digest(r.command) == x.digest && at <= now <= x.digest.of.deadline + cfg.retention
    requires n == Run(cfg, events + [Arrive(id, Some(r), at)] + [Lookup(id, now)])
    ensures id in n.deliveries && Reported(n.deliveries[id])
    ensures id in n.replies && n.replies[id] == Reply(Some(r.command), n.deliveries[id].pc.result)
  {
    var before := events + [Arrive(id, Some(r), at)];
    ArrivedWaits(cfg, events, id, r, at, s, Run(cfg, before));
    RunExtends(cfg, before, Lookup(id, now));
    RunIsSafe(cfg, before);
    LookupIsAnswered(cfg, Run(cfg, before), x, id, r, now);
  }

  /** An approved request waits for its ledger row. */
  lemma ArrivedWaits(cfg: Config, events: seq<Event>, id: nat, r: Request, at: Time, s: System, t: System)
    requires cfg.retention > 0 && s == Run(cfg, events) && t == Run(cfg, events + [Arrive(id, Some(r), at)])
    requires Enabled(cfg, s, Arrive(id, Some(r), at)) && Approved(s, r, at)
    ensures t.up && t.history == Advance(s.history, at) && t.history.clock == at
    ensures AtLedger(t, id, Verified) && t.deliveries[id].command == r.command
  {
    RunExtends(cfg, events, Arrive(id, Some(r), at));
    ApprovedRequestsArrive(cfg, events, s, id, r, at);
    RunIsSafe(cfg, events);
    if r.command.id in s.history.rows {
      assert RowInv(s.history, r.command.id, cfg.retention);
    }
  }

  lemma LookupIsAnswered(cfg: Config, t: System, x: Start, id: nat, r: Request, now: Time)
    requires Inv(t.history, cfg.retention) && x in t.history.starts && Enabled(cfg, t, Lookup(id, now))
    requires t.deliveries[id].command == r.command
    requires Digest(r.command) == x.digest && now <= x.digest.of.deadline + cfg.retention
    ensures var n := Step(cfg, t, Lookup(id, now));
            && id in n.deliveries && Reported(n.deliveries[id])
            && id in n.replies && n.replies[id] == Reply(Some(r.command), n.deliveries[id].pc.result)
  {
    LookupReports(cfg, t, x, id, now);
  }

  /** A command that completed is told its completion, with the time it was written, whenever an
      approved request for it comes again while the row is kept. */
  lemma CompletionsAreToldAgain(cfg: Config, events: seq<Event>, id: nat, r: Request, at: Time, now: Time, s: System, n: System)
    requires cfg.retention > 0 && s == Run(cfg, events)
    requires Enabled(cfg, s, Arrive(id, Some(r), at)) && Approved(s, r, at) && at <= now
    requires var rows := s.history.rows;
             r.command.id in rows && rows[r.command.id].digest == Digest(r.command)
             && rows[r.command.id].state == Completed && now <= rows[r.command.id].keepUntil
    requires n == Run(cfg, events + [Arrive(id, Some(r), at)] + [Lookup(id, now)])
    ensures var row := s.history.rows[r.command.id];
            && row.result.Some? && row.result.value.outcome == Executed && row.result.value.writtenAt.Some?
            && id in n.replies && n.replies[id] == Reply(Some(r.command), row.result.value.(replayed := true))
  {
    var before := events + [Arrive(id, Some(r), at)];
    ArrivedWaits(cfg, events, id, r, at, s, Run(cfg, before));
    RunExtends(cfg, before, Lookup(id, now));
    RunRows(cfg, events, s, r.command.id);
    LookupAnswers(cfg, before, Run(cfg, before), id, now);
  }

  // ----- a delivery in time completes -----

  function After(cfg: Config, s: System, events: seq<Event>): System
    decreases |events|
  {
    if events == [] then s else After(cfg, Step(cfg, s, events[0]), events[1..])
  }

  lemma {:induction false} AfterIsRun(cfg: Config, events: seq<Event>, more: seq<Event>)
    ensures Run(cfg, events + more) == After(cfg, Run(cfg, events), more)
    decreases |more|
  {
    if more == [] {
      assert events + more == events;
    } else {
      RunExtends(cfg, events, more[0]);
      AfterIsRun(cfg, events + [more[0]], more[1..]);
      ShiftFirst(events, more);
    }
  }

  lemma {:induction false} AfterSplits(cfg: Config, s: System, a: seq<Event>, b: seq<Event>)
    ensures After(cfg, s, a + b) == After(cfg, After(cfg, s, a), b)
    decreases |a|
  {
    if a == [] {
      assert a + b == b;
    } else {
      AfterSplits(cfg, Step(cfg, s, a[0]), a[1..], b);
      FirstOfSum(a, b);
    }
  }

  lemma TwoSteps(cfg: Config, s: System, a: Event, b: Event)
    ensures After(cfg, s, [a, b]) == Step(cfg, Step(cfg, s, a), b)
  {
    assert [a, b][1..] == [b] && [b][1..] == [];
    assert After(cfg, Step(cfg, s, a), [b]) == After(cfg, Step(cfg, Step(cfg, s, a), b), []);
  }

  lemma FourSteps(cfg: Config, s: System, a: Event, b: Event, c: Event, d: Event)
    ensures After(cfg, s, [a, b, c, d]) == Step(cfg, Step(cfg, Step(cfg, Step(cfg, s, a), b), c), d)
  {
    assert [a, b, c, d] == [a, b] + [c, d];
    AfterSplits(cfg, s, [a, b], [c, d]);
    TwoSteps(cfg, s, a, b);
    TwoSteps(cfg, After(cfg, s, [a, b]), c, d);
  }

  /** How one delivery gets to its token when nothing goes wrong. */
  function Admission(id: nat, r: Request, at: Time, minted: Token): seq<Event> {
    [Arrive(id, Some(r), at), Lookup(id, at), Reverify(id, at), ClaimAttempt(id, at, at, minted)]
  }

  function OneFrame(id: nat, at: Time): seq<Event> {
    [Fence(id, at), Mark(id, at), Clear(id, at), Send(id, true)]
  }

  function Frames(id: nat, at: Time, count: nat): seq<Event> {
    if count == 0 then [] else OneFrame(id, at) + Frames(id, at, count - 1)
  }

  function Completion(id: nat, at: Time): seq<Event> {
    [DeviceAck(id), Finish(id, at, at)]
  }

  function Delivering(cfg: Config, id: nat, r: Request, at: Time, minted: Token): seq<Event> {
    Admission(id, r, at, minted) + Frames(id, at, FrameCount(cfg, r.command)) + Completion(id, at)
  }

  /** The writer is up, and this delivery, its token and its approval are good at an instant. */
  predicate Ready(s: System, id: nat, r: Request, at: Time, minted: Token) {
    && s.up && s.history.clock <= at <= r.command.deadline && id !in s.seen && minted !in s.history.grants
    && Approved(s, r, at)
  }

  /** Up at this instant, with this delivery standing so. */
  predicate Stands(s: System, id: nat, d: Delivery, at: Time) {
    s.up && s.history.clock == at && id in s.deliveries && s.deliveries[id] == d
  }

  lemma ArrivalStep(cfg: Config, s: System, id: nat, r: Request, at: Time, minted: Token, n: System)
    requires Ready(s, id, r, at, minted) && Authentic(cfg, r.approval) && n == Step(cfg, s, Arrive(id, Some(r), at))
    ensures Stands(n, id, Delivery(r.command, r.approval, Verified, Idle, None, 0, 0), at)
    ensures n.history == s.history.(clock := at) && n.frames == s.frames
  {
    assert r.approval in s.approvals && r.approval.signature == r.approval.signature;
    AuthenticPasses(cfg, r, at, true);
  }

  lemma LookupStep(cfg: Config, s: System, id: nat, d: Delivery, at: Time, n: System)
    requires Stands(s, id, d, at) && d.pc == Verified && n == Step(cfg, s, Lookup(id, at))
    requires Open(s.history.rows, d.command, at)
    requires d.command.id in s.history.rows ==> RowInv(s.history, d.command.id, cfg.retention)
    ensures Stands(n, id, d.(pc := NeedClaim), at)
    ensures n.history == s.history.(rows := Prune(s.history.rows, at)) && n.frames == s.frames
  {
  }

  lemma ReverifyStep(cfg: Config, s: System, id: nat, d: Delivery, at: Time, n: System)
    requires Stands(s, id, d, at) && d.pc == NeedClaim && Authentic(cfg, d.approval)
    requires d.approval.digest == Digest(d.command) && d.approval.issuedAt <= at <= d.command.deadline
    requires n == Step(cfg, s, Reverify(id, at))
    ensures Stands(n, id, d.(pc := Checked), at) && n.history == s.history && n.frames == s.frames
  {
    AuthenticPasses(cfg, Request(d.command, d.approval), at, false);
  }

  lemma ClaimStepGrants(cfg: Config, s: System, id: nat, d: Delivery, at: Time, minted: Token, n: System)
    requires Stands(s, id, d, at) && d.pc == Checked && minted !in s.history.grants
    requires Open(s.history.rows, d.command, at)
    requires d.command.id in s.history.rows ==> RowInv(s.history, d.command.id, cfg.retention)
    requires n == Step(cfg, s, ClaimAttempt(id, at, at, minted))
    ensures Stands(n, id, d.(pc := Writing, writer := Next, token := Some(minted)), at)
    ensures n.history.starts == s.history.starts && n.frames == s.frames
    ensures Holding(n, d.command, minted, false)
  {
  }

  /** The command's row stands under this token. */
  predicate Holding(s: System, command: Command, token: Token, started: bool) {
    && HeldBy(s.history.rows, command.id, token)
    && s.history.rows[command.id].digest == Digest(command)
    && s.history.rows[command.id].state == (if started then Started else Preparing)
  }

  lemma FencedStep(cfg: Config, s: System, id: nat, d: Delivery, at: Time, n: System)
    requires Stands(s, id, d, at) && d.writer == Next && d.token.Some? && Authentic(cfg, d.approval)
    requires d.approval.digest == Digest(d.command) && d.approval.issuedAt <= at <= d.command.deadline
    requires n == Step(cfg, s, Fence(id, at))
    ensures Stands(n, id, d.(writer := Fenced), at) && n.history == s.history && n.frames == s.frames
  {
    AuthenticPasses(cfg, Request(d.command, d.approval), at, false);
  }

  lemma MarkedStep(cfg: Config, s: System, id: nat, d: Delivery, at: Time, started: bool, n: System)
    requires Stands(s, id, d, at) && d.writer == Fenced && d.token.Some? && Holding(s, d.command, d.token.value, started)
    requires n == Step(cfg, s, Mark(id, at))
    ensures Stands(n, id, d.(writer := Marked), at) && Holding(n, d.command, d.token.value, true) && n.frames == s.frames
    ensures n.history.starts == s.history.starts + if started then [] else [Start(Digest(d.command), d.token.value, at)]
  {
  }

  lemma ClearedStep(cfg: Config, s: System, id: nat, d: Delivery, at: Time, n: System)
    requires Stands(s, id, d, at) && d.writer == Marked && d.token.Some? && Authentic(cfg, d.approval)
    requires d.approval.digest == Digest(d.command) && d.approval.issuedAt <= at <= d.command.deadline
    requires n == Step(cfg, s, Clear(id, at))
    ensures Stands(n, id, d.(writer := Cleared, clearedAt := at), at) && n.history == s.history && n.frames == s.frames
  {
    AuthenticPasses(cfg, Request(d.command, d.approval), at, false);
  }

  lemma SentStep(cfg: Config, s: System, id: nat, d: Delivery, at: Time, n: System)
    requires Stands(s, id, d, at) && d.writer == Cleared && d.token.Some? && n == Step(cfg, s, Send(id, true))
    ensures Stands(n, id, d.(writer := if d.sent + 1 < FrameCount(cfg, d.command) then Next else AwaitAck,
                             sent := d.sent + 1), at)
    ensures n.history == s.history
    ensures n.frames == s.frames + [Frame(id, Digest(d.command), d.token.value, d.sent, d.clearedAt)]
  {
  }

  /** The delivery of this request is writing under its token, with so many frames out. */
  predicate Underway(cfg: Config, s: System, id: nat, r: Request, at: Time, token: Token, sent: nat) {
    && s.up && s.history.clock == at && id in s.deliveries
    && s.deliveries[id].command == r.command && s.deliveries[id].approval == r.approval
    && s.deliveries[id].pc == Writing && s.deliveries[id].token == Some(token) && s.deliveries[id].sent == sent
    && s.deliveries[id].writer == (if sent < FrameCount(cfg, r.command) then Next else AwaitAck)
    && Holding(s, r.command, token, sent > 0)
  }

  predicate StillGood(cfg: Config, r: Request, at: Time) {
    Authentic(cfg, r.approval) && r.approval.digest == Digest(r.command) && r.approval.issuedAt <= at <= r.command.deadline
  }

  lemma FrameGoesOut(cfg: Config, s: System, id: nat, r: Request, at: Time, token: Token, sent: nat, n: System)
    requires Underway(cfg, s, id, r, at, token, sent) && sent < FrameCount(cfg, r.command) && StillGood(cfg, r, at)
    requires n == After(cfg, s, OneFrame(id, at))
    ensures Underway(cfg, n, id, r, at, token, sent + 1)
    ensures n.frames == s.frames + [Frame(id, Digest(r.command), token, sent, at)]
    ensures n.history.starts == s.history.starts + if sent == 0 then [Start(Digest(r.command), token, at)] else []
  {
    var d := s.deliveries[id];
    var a := Step(cfg, s, Fence(id, at));
    FencedStep(cfg, s, id, d, at, a);
    var b := Step(cfg, a, Mark(id, at));
    MarkedStep(cfg, a, id, d.(writer := Fenced), at, sent > 0, b);
    var c := Step(cfg, b, Clear(id, at));
    ClearedStep(cfg, b, id, d.(writer := Marked), at, c);
    SentStep(cfg, c, id, d.(writer := Cleared, clearedAt := at), at, Step(cfg, c, Send(id, true)));
    FourSteps(cfg, s, Fence(id, at), Mark(id, at), Clear(id, at), Send(id, true));
  }

  lemma PrunedStaysOpen(rows: Rows, command: Command, at: Time)
    requires Open(rows, command, at)
    ensures Open(Prune(rows, at), command, at)
  {
  }

  /** The delivery has passed both checks and is about to claim. */
  lemma ChecksArePassed(cfg: Config, s: System, id: nat, r: Request, at: Time, d: Delivery, a: System, b: System, c: System)
    requires Stands(a, id, d, at) && d == Delivery(r.command, r.approval, Verified, Idle, None, 0, 0)
    requires a.history == s.history.(clock := at) && StillGood(cfg, r, at) && Open(s.history.rows, r.command, at)
    requires r.command.id in s.history.rows ==> RowInv(a.history, r.command.id, cfg.retention)
    requires b == Step(cfg, a, Lookup(id, at)) && c == Step(cfg, b, Reverify(id, at))
    ensures Stands(c, id, d.(pc := Checked), at) && c.frames == a.frames
    ensures c.history == a.history.(rows := Prune(a.history.rows, at)) && Open(c.history.rows, r.command, at)
  {
    LookupStep(cfg, a, id, d, at, b);
    ReverifyStep(cfg, b, id, d.(pc := NeedClaim), at, c);
    PrunedStaysOpen(a.history.rows, r.command, at);
  }

  lemma AdmissionGrants(cfg: Config, s: System, id: nat, r: Request, at: Time, token: Token, n: System)
    requires Ready(s, id, r, at, token) && StillGood(cfg, r, at) && Open(s.history.rows, r.command, at)
    requires r.command.id in s.history.rows ==> RowInv(s.history, r.command.id, cfg.retention)
    requires n == After(cfg, s, Admission(id, r, at, token))
    ensures Underway(cfg, n, id, r, at, token, 0)
    ensures n.frames == s.frames && n.history.starts == s.history.starts
  {
    var d := Delivery(r.command, r.approval, Verified, Idle, None, 0, 0);
    var a := Step(cfg, s, Arrive(id, Some(r), at));
    ArrivalStep(cfg, s, id, r, at, token, a);
    var b := Step(cfg, a, Lookup(id, at));
    var c := Step(cfg, b, Reverify(id, at));
    ChecksArePassed(cfg, s, id, r, at, d, a, b, c);
    ClaimStepGrants(cfg, c, id, d.(pc := Checked), at, token, Step(cfg, c, ClaimAttempt(id, at, at, token)));
    FourSteps(cfg, s, Arrive(id, Some(r), at), Lookup(id, at), Reverify(id, at), ClaimAttempt(id, at, at, token));
  }

  /** The frames of this write, in the order of their positions. */
  function Written(id: nat, r: Request, at: Time, token: Token, from: nat, to: nat): seq<Frame>
    decreases to - from
  {
    if from >= to then [] else [Frame(id, Digest(r.command), token, from, at)] + Written(id, r, at, token, from + 1, to)
  }

  lemma {:induction false} FramesGoOut(cfg: Config, s: System, id: nat, r: Request, at: Time, token: Token, sent: nat,
                                       n: System)
    requires Underway(cfg, s, id, r, at, token, sent) && sent <= FrameCount(cfg, r.command) && StillGood(cfg, r, at)
    requires n == After(cfg, s, Frames(id, at, FrameCount(cfg, r.command) - sent))
    ensures Underway(cfg, n, id, r, at, token, FrameCount(cfg, r.command))
    ensures n.frames == s.frames + Written(id, r, at, token, sent, FrameCount(cfg, r.command))
    ensures sent > 0 ==> n.history.starts == s.history.starts
    ensures sent == 0 ==> n.history.starts == s.history.starts + [Start(Digest(r.command), token, at)]
    decreases FrameCount(cfg, r.command) - sent
  {
    if sent < FrameCount(cfg, r.command) {
      var m := After(cfg, s, OneFrame(id, at));
      FrameGoesOut(cfg, s, id, r, at, token, sent, m);
      AfterSplits(cfg, s, OneFrame(id, at), Frames(id, at, FrameCount(cfg, r.command) - sent - 1));
      FramesGoOut(cfg, m, id, r, at, token, sent + 1, n);
    }
  }

  lemma CompletionStep(cfg: Config, s: System, id: nat, r: Request, at: Time, token: Token, n: System)
    requires Underway(cfg, s, id, r, at, token, FrameCount(cfg, r.command)) && n == After(cfg, s, Completion(id, at))
    ensures id in n.replies && n.replies[id] == Reply(Some(r.command), WriteResult(Executed, Some(at), "", false, false))
    ensures n.frames == s.frames && n.history.starts == s.history.starts && token in n.acked
    ensures r.command.id in n.history.rows && n.history.rows[r.command.id].digest == Digest(r.command)
    ensures n.history.rows[r.command.id].state == Completed
  {
    TwoSteps(cfg, s, DeviceAck(id), Finish(id, at, at));
  }

  /** One frame for an OPC UA target; the payload and then its number for a native mailbox. */
  function Expected(cfg: Config, id: nat, r: Request, at: Time, token: Token): seq<Frame> {
    if r.command.target in cfg.opcua then [Frame(id, Digest(r.command), token, 0, at)]
    else [Frame(id, Digest(r.command), token, 0, at), Frame(id, Digest(r.command), token, 1, at)]
  }

  lemma WrittenIsExpected(cfg: Config, id: nat, r: Request, at: Time, token: Token)
    ensures Written(id, r, at, token, 0, FrameCount(cfg, r.command)) == Expected(cfg, id, r, at, token)
  {
    assert Written(id, r, at, token, 2, 2) == [];
    assert Written(id, r, at, token, 1, 2) == [Frame(id, Digest(r.command), token, 1, at)];
    assert Written(id, r, at, token, 1, 1) == [];
  }

  lemma IssuedIsAuthentic(cfg: Config, events: seq<Event>, s: System, a: SignedEvidence)
    requires cfg.retention > 0 && s == Run(cfg, events) && a in s.approvals
    ensures Authentic(cfg, a)
  {
    RunIsSafe(cfg, events);
  }

  /** The three parts of an undisturbed delivery, one after another. */
  lemma PartsComplete(cfg: Config, s: System, id: nat, r: Request, at: Time, token: Token, n: System)
    requires Ready(s, id, r, at, token) && StillGood(cfg, r, at) && Open(s.history.rows, r.command, at)
    requires r.command.id in s.history.rows ==> RowInv(s.history, r.command.id, cfg.retention)
    requires n == After(cfg, s, Delivering(cfg, id, r, at, token))
    ensures id in n.replies && n.replies[id] == Reply(Some(r.command), WriteResult(Executed, Some(at), "", false, false))
    ensures n.history.starts == s.history.starts + [Start(Digest(r.command), token, at)]
    ensures n.frames == s.frames + Expected(cfg, id, r, at, token)
    ensures token in n.acked && r.command.id in n.history.rows
    ensures n.history.rows[r.command.id].digest == Digest(r.command) && n.history.rows[r.command.id].state == Completed
  {
    var count := FrameCount(cfg, r.command);
    WrittenIsExpected(cfg, id, r, at, token);
    var admitted := After(cfg, s, Admission(id, r, at, token));
    AdmissionGrants(cfg, s, id, r, at, token, admitted);
    var written := After(cfg, admitted, Frames(id, at, count));
    FramesGoOut(cfg, admitted, id, r, at, token, 0, written);
    CompletionStep(cfg, written, id, r, at, token, After(cfg, written, Completion(id, at)));
    AfterSplits(cfg, s, Admission(id, r, at, token) + Frames(id, at, count), Completion(id, at));
    AfterSplits(cfg, s, Admission(id, r, at, token), Frames(id, at, count));
  }

  /** From any reachable state a delivery of an approved command that comes by the deadline, and whose
      id the ledger leaves open, can run to completion: it starts exactly once, puts exactly its frames
      on the wire in order, and is told its completion. */
  lemma InTimeDeliveriesComplete(cfg: Config, events: seq<Event>, id: nat, r: Request, at: Time, token: Token,
                                 s: System, n: System)
    requires cfg.retention > 0 && s == Run(cfg, events)
    requires Ready(s, id, r, at, token) && Open(s.history.rows, r.command, at)
    requires n == Run(cfg, events + Delivering(cfg, id, r, at, token))
    ensures id in n.replies && n.replies[id] == Reply(Some(r.command), WriteResult(Executed, Some(at), "", false, false))
    ensures n.history.starts == s.history.starts + [Start(Digest(r.command), token, at)]
    ensures n.frames == s.frames + Expected(cfg, id, r, at, token)
    ensures token in n.acked && r.command.id in n.history.rows
    ensures n.history.rows[r.command.id].digest == Digest(r.command) && n.history.rows[r.command.id].state == Completed
  {
    IssuedIsAuthentic(cfg, events, s, r.approval);
    if r.command.id in s.history.rows {
      RunRows(cfg, events, s, r.command.id);
    }
    AfterIsRun(cfg, events, Delivering(cfg, id, r, at, token));
    PartsComplete(cfg, s, id, r, at, token, n);
  }

  /** An attempt that fails before its start leaves the way open: the same approved command, delivered
      again by its deadline, runs to completion. */
  lemma SafeFailuresCanBeRetried(cfg: Config, events: seq<Event>, first: nat, reason: string, failed: Time,
                                 id: nat, r: Request, at: Time, token: Token, s: System, n: System)
    requires cfg.retention > 0 && s == Run(cfg, events) && Enabled(cfg, s, SettleFailure(first, reason, failed))
    requires Holding(s, s.deliveries[first].command, s.deliveries[first].token.value, false)
    requires r.command == s.deliveries[first].command
    requires Ready(Step(cfg, s, SettleFailure(first, reason, failed)), id, r, at, token)
    requires n == Run(cfg, events + [SettleFailure(first, reason, failed)] + Delivering(cfg, id, r, at, token))
    ensures id in n.replies && n.replies[id] == Reply(Some(r.command), WriteResult(Executed, Some(at), "", false, false))
    ensures n.history.starts == s.history.starts + [Start(Digest(r.command), token, at)]
    ensures n.frames == s.frames + Expected(cfg, id, r, at, token)
  {
    var e := SettleFailure(first, reason, failed);
    var t := Step(cfg, s, e);
    FailuresAreTold(cfg, events, s, first, reason, failed);
    RunExtends(cfg, events, e);
    assert Open(t.history.rows, r.command, at);
    InTimeDeliveriesComplete(cfg, events + [e], id, r, at, token, t, n);
  }
}
