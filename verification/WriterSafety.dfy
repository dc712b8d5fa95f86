/** Safety of the writer over whole runs: one initiation and one set of frames for each
    approved command, and replies that say no more than what happened. */
module WriterSafety {
  import opened Common
  import opened Authorization
  import opened CommandLedger
  import opened LedgerHistory
  import opened WriterProtocol

  ghost predicate Initiated(h: History, digest: Digest, token: Token) {
    exists s :: s in h.starts && s.digest == digest && s.token == token
  }

  predicate Authentic(cfg: Config, a: SignedEvidence) {
    && a.purpose == Approval && a.writer == cfg.writerId
    && a.signature == Signature(cfg.key, a.purpose, a.digest, a.writer, a.issuedAt)
  }

  ghost predicate Evidenced(h: History, acked: set<Token>, digest: Digest) {
    exists s :: s in h.starts && s.digest == digest && s.token in acked
  }

  predicate Refuses(r: WriteResult) {
    r.outcome == NotExecuted || r.outcome == Conflict
  }

  /** What one delivery knows, given the rest of the system. */
  ghost predicate DeliveryInv(cfg: Config, s: System, id: nat, d: Delivery) {
    && id in s.seen
    && d.approval in s.approvals && d.approval.digest == Digest(d.command)
    && d.approval.issuedAt <= s.history.clock
    && (d.token.None? ==> d.writer == Idle && d.sent == 0)
    && (d.pc == Verified || d.pc == NeedClaim || d.pc == Checked ==> d.token.None?)
    && (d.pc == Writing || d.pc == Broken || d.pc == Cancelled ==> d.token.Some?)
    && (d.token.Some? ==>
          && d.token.value in s.history.grants
          && s.history.grants[d.token.value].digest == Digest(d.command)
          && (d.writer == Fenced || d.writer == Marked || d.writer == Cleared ==> InTime(s.history, d.token.value))
          && (d.writer == Marked || d.writer == Cleared || d.sent > 0 ==>
                Initiated(s.history, Digest(d.command), d.token.value))
          && (d.writer == Acknowledged ==> d.token.value in s.acked))
    && (d.writer == Next || d.writer == Fenced || d.writer == Marked || d.writer == Cleared ==>
          d.sent < FrameCount(cfg, d.command))
    && (d.writer == AwaitAck || d.writer == Acknowledged ==> d.sent == FrameCount(cfg, d.command))
    && (d.pc.Replied? ==> id in s.replies && s.replies[id] == Reply(Some(d.command), d.pc.result))
    && (d.pc.Replied? && Refuses(d.pc.result) ==> d.sent == 0 && (d.writer == Idle || d.writer == Raised))
    && (!d.pc.Replied? ==> id !in s.replies)
  }

  ghost predicate DeliveriesInv(cfg: Config, s: System) {
    forall id | id in s.deliveries :: DeliveryInv(cfg, s, id, s.deliveries[id])
  }

  ghost predicate TokensDistinct(s: System) {
    forall a, b | a in s.deliveries && b in s.deliveries && a != b ::
      s.deliveries[a].token.Some? ==> s.deliveries[a].token != s.deliveries[b].token
  }

  /** The wire log agrees with what each delivery has sent. */
  ghost predicate FramesMatch(s: System) {
    forall id, f | id in s.deliveries && f in s.frames ::
      && (f.delivery == id <==> Some(f.token) == s.deliveries[id].token)
      && (f.delivery == id ==> f.index < s.deliveries[id].sent)
  }

  ghost predicate FramesSent(s: System) {
    forall id, k: nat | id in s.deliveries && s.deliveries[id].token.Some? && k < s.deliveries[id].sent ::
      SentBy(s.frames, id, Digest(s.deliveries[id].command), s.deliveries[id].token.value, k)
  }

  ghost predicate FramesInitiated(cfg: Config, s: System) {
    forall f | f in s.frames ::
      && Initiated(s.history, f.digest, f.token)
      && f.index < FrameCount(cfg, f.digest.of)
      && f.delivery in s.seen
      && (f.delivery in s.replies ==> !Refuses(s.replies[f.delivery].result))
  }

  ghost predicate FramesOrdered(s: System) {
    forall i, j | 0 <= i < j < |s.frames| && s.frames[i].token == s.frames[j].token ::
      s.frames[i].index < s.frames[j].index && s.frames[i].delivery == s.frames[j].delivery
  }

  ghost predicate AckedComplete(cfg: Config, s: System) {
    forall t | t in s.acked :: t in s.history.grants && AllFramesOf(cfg, s.frames, s.history.grants[t].digest, t)
  }

  ghost predicate AllFramesOf(cfg: Config, frames: seq<Frame>, digest: Digest, token: Token) {
    forall k: nat | k < FrameCount(cfg, digest.of) :: Sent(frames, digest, token, k)
  }

  ghost predicate SentBy(frames: seq<Frame>, id: nat, digest: Digest, token: Token, index: nat) {
    exists f :: f in frames && f.delivery == id && f.digest == digest && f.token == token && f.index == index
  }

  ghost predicate Sent(frames: seq<Frame>, digest: Digest, token: Token, index: nat) {
    exists f :: f in frames && f.digest == digest && f.token == token && f.index == index
  }

  ghost predicate RepliesInv(s: System) {
    forall id | id in s.replies ::
      && id in s.seen
      && (s.replies[id].result.outcome == Executed ==>
            && s.replies[id].result.writtenAt.Some?
            && s.replies[id].command.Some?
            && Evidenced(s.history, s.acked, Digest(s.replies[id].command.value)))
  }

  ghost predicate CompletedEvidenced(s: System) {
    forall k | k in s.history.rows && s.history.rows[k].state == Completed ::
      Evidenced(s.history, s.acked, s.history.rows[k].digest)
  }

  ghost predicate StartsApproved(s: System) {
    forall x | x in s.history.starts :: exists a :: a in s.approvals && a.digest == x.digest && a.issuedAt <= x.at
  }

  ghost predicate Safe(cfg: Config, s: System) {
    && Inv(s.history, cfg.retention)
    && (forall a | a in s.approvals :: Authentic(cfg, a))
    && DeliveriesInv(cfg, s)
    && TokensDistinct(s)
    && FramesMatch(s)
    && FramesSent(s)
    && FramesInitiated(cfg, s)
    && FramesOrdered(s)
    && AckedComplete(cfg, s)
    && RepliesInv(s)
    && CompletedEvidenced(s)
    && StartsApproved(s)
  }

  /** Rows are readable and writers hold tokens: nothing else ever disables an event. */
  ghost predicate Tokened(s: System) {
    && AllWellFormed(s.history.rows)
    && forall id | id in s.deliveries ::
         var d := s.deliveries[id];
         (d.writer != Idle || d.pc == Writing || d.pc == Broken || d.pc == Cancelled) ==> d.token.Some?
  }

  lemma SafeIsTokened(cfg: Config, s: System)
    requires Safe(cfg, s)
    ensures Tokened(s)
  {
    forall id | id in s.history.rows ensures WellFormed(s.history.rows[id]) {
      assert RowInv(s.history, id, cfg.retention);
    }
    forall id | id in s.deliveries ensures DeliveryInv(cfg, s, id, s.deliveries[id]) {}
  }

  // ----- history only grows -----

  /** The later history repeats every start and grant. */
  ghost predicate Extends(h: History, n: History) {
    && h.clock <= n.clock
    && h.starts <= n.starts
    && (forall t | t in h.grants :: t in n.grants && n.grants[t] == h.grants[t])
  }

  lemma InitiatedExtends(h: History, n: History)
    requires Extends(h, n)
    ensures forall d, t | Initiated(h, d, t) :: Initiated(n, d, t)
    ensures forall t | InTime(h, t) :: InTime(n, t)
    ensures forall acked, d | Evidenced(h, acked, d) :: Evidenced(n, acked, d)
  {
    assert forall s | s in h.starts :: s in n.starts;
  }

  /** Only the history, this delivery and this delivery's reply changed; nothing was sent. */
  ghost predicate Local(s: System, n: System, id: nat, d: Delivery) {
    && id in s.deliveries
    && Extends(s.history, n.history)
    && n.deliveries == s.deliveries[id := d]
    && n.seen == s.seen && n.approvals == s.approvals && n.frames == s.frames && n.acked == s.acked
    && n.replies == (if d.pc.Replied? then s.replies[id := Reply(Some(d.command), d.pc.result)] else s.replies)
    && d.command == s.deliveries[id].command && d.token == s.deliveries[id].token && d.sent == s.deliveries[id].sent
  }

  /** A reply repeats the one already given, or is backed by what happened. */
  ghost predicate ReplyOk(s: System, id: nat, d: Delivery) {
    d.pc.Replied? ==>
      && (Refuses(d.pc.result) ==> d.sent == 0)
      && ((id in s.replies && s.replies[id] == Reply(Some(d.command), d.pc.result))
          || (d.pc.result.outcome == Executed ==>
                d.pc.result.writtenAt.Some? && Evidenced(s.history, s.acked, Digest(d.command))))
  }

  lemma LocalDeliveries(cfg: Config, s: System, n: System, id: nat, d: Delivery)
    requires DeliveriesInv(cfg, s) && Local(s, n, id, d) && DeliveryInv(cfg, n, id, d)
    ensures DeliveriesInv(cfg, n)
  {
    InitiatedExtends(s.history, n.history);
    forall k | k in n.deliveries ensures DeliveryInv(cfg, n, k, n.deliveries[k]) {
      if k != id { assert DeliveryInv(cfg, s, k, s.deliveries[k]); }
    }
  }

  lemma LocalTokens(s: System, n: System, id: nat, d: Delivery)
    requires TokensDistinct(s) && FramesMatch(s) && FramesSent(s) && FramesOrdered(s) && Local(s, n, id, d)
    ensures TokensDistinct(n) && FramesMatch(n) && FramesSent(n) && FramesOrdered(n)
  {
  }

  lemma LocalFrames(cfg: Config, s: System, n: System, id: nat, d: Delivery)
    requires FramesInitiated(cfg, s) && FramesMatch(s) && AckedComplete(cfg, s) && Local(s, n, id, d)
    requires d.pc.Replied? && Refuses(d.pc.result) ==> d.sent == 0
    ensures FramesInitiated(cfg, n) && AckedComplete(cfg, n)
  {
    InitiatedExtends(s.history, n.history);
  }

  lemma LocalReplies(cfg: Config, s: System, n: System, id: nat, d: Delivery)
    requires RepliesInv(s) && Local(s, n, id, d) && id in s.seen
    requires ReplyOk(s, id, d)
    ensures RepliesInv(n)
  {
    InitiatedExtends(s.history, n.history);
  }

  lemma LocalKeepsSafe(cfg: Config, s: System, n: System, id: nat, d: Delivery)
    requires Safe(cfg, s) && Local(s, n, id, d)
    requires Inv(n.history, cfg.retention)
    requires DeliveryInv(cfg, n, id, d)
    requires ReplyOk(s, id, d)
    requires StartsApproved(n) && CompletedEvidenced(n)
    ensures Safe(cfg, n)
  {
    LocalDeliveries(cfg, s, n, id, d);
    LocalTokens(s, n, id, d);
    LocalFrames(cfg, s, n, id, d);
    assert DeliveryInv(cfg, s, id, s.deliveries[id]);
    LocalReplies(cfg, s, n, id, d);
  }

  /** No row became completed. */
  ghost predicate NoCompletion(h: History, n: History) {
    && h.starts == n.starts
    && forall k | k in n.rows && n.rows[k].state == Completed :: k in h.rows && h.rows[k] == n.rows[k]
  }

  lemma QuietLocalKeepsSafe(cfg: Config, s: System, n: System, id: nat, d: Delivery)
    requires Safe(cfg, s) && Local(s, n, id, d) && NoCompletion(s.history, n.history)
    requires Inv(n.history, cfg.retention)
    requires DeliveryInv(cfg, n, id, d)
    requires ReplyOk(s, id, d)
    ensures Safe(cfg, n)
  {
    InitiatedExtends(s.history, n.history);
    LocalKeepsSafe(cfg, s, n, id, d);
  }

  /** What an event must show of the one delivery it concerns. */
  ghost predicate LocalStep(cfg: Config, s: System, n: System, id: nat) {
    && id in n.deliveries
    && var d := n.deliveries[id];
       && Local(s, n, id, d)
       && NoCompletion(s.history, n.history)
       && DeliveryInv(cfg, n, id, d)
       && ReplyOk(s, id, d)
  }

  lemma QuietStepKeepsSafe(cfg: Config, s: System, n: System, id: nat)
    requires Safe(cfg, s) && LocalStep(cfg, s, n, id) && Inv(n.history, cfg.retention)
    ensures Safe(cfg, n)
  {
    QuietLocalKeepsSafe(cfg, s, n, id, n.deliveries[id]);
  }

  // ----- every event keeps the system safe -----

  lemma DeliveriesCarryOver(cfg: Config, s: System, n: System)
    requires DeliveriesInv(cfg, s) && Extends(s.history, n.history)
    requires n.deliveries.Keys <= s.deliveries.Keys && forall k | k in n.deliveries :: n.deliveries[k] == s.deliveries[k]
    requires s.seen <= n.seen && s.approvals <= n.approvals && n.acked == s.acked && n.replies == s.replies
    ensures DeliveriesInv(cfg, n)
  {
    InitiatedExtends(s.history, n.history);
    forall k | k in n.deliveries ensures DeliveryInv(cfg, n, k, n.deliveries[k]) {
      assert DeliveryInv(cfg, s, k, s.deliveries[k]);
    }
  }

  lemma ApproveKeepsSafe(cfg: Config, s: System, command: Command, now: Time)
    requires Safe(cfg, s) && NotBefore(s, now)
    ensures Safe(cfg, DoApprove(cfg, s, command, now))
  {
    var n := DoApprove(cfg, s, command, now);
    AdvanceKeepsInv(s.history, now, cfg.retention);
    DeliveriesCarryOver(cfg, s, n);
    assert AckedComplete(cfg, n);
  }

  /** A signature that verifies was issued, so its evidence is one of the approvals. */
  lemma VerifiedIsApproved(cfg: Config, s: System, request: Request, now: Time, allowExpired: bool)
    requires (forall a | a in s.approvals :: Authentic(cfg, a)) && Constructible(cfg, s, request)
    requires VerifyEvidence(request.command, request.approval, cfg.key, Approval, cfg.writerId, now, allowExpired)
    ensures request.approval in s.approvals
  {
    var a :| a in s.approvals && a.signature == request.approval.signature;
    assert Authentic(cfg, a);
    assert a == request.approval;
  }

  lemma ArrivedIsVerified(cfg: Config, s: System, id: nat, request: Request, now: Time)
    requires NotBefore(s, now) && id !in s.replies && request.approval in s.approvals
    requires VerifyEvidence(request.command, request.approval, cfg.key, Approval, cfg.writerId, now, true)
    ensures var n := DoArrive(cfg, s, id, Some(request), now);
            id in n.deliveries && DeliveryInv(cfg, n, id, n.deliveries[id])
  {
  }

  lemma ArrivedDeliveries(cfg: Config, s: System, id: nat, request: Option<Request>, now: Time)
    requires DeliveriesInv(cfg, s) && (forall a | a in s.approvals :: Authentic(cfg, a))
    requires NotBefore(s, now) && id !in s.replies && id !in s.deliveries
    requires request.Some? ==> Constructible(cfg, s, request.value)
    ensures DeliveriesInv(cfg, DoArrive(cfg, s, id, request, now))
  {
    var n := DoArrive(cfg, s, id, request, now);
    if id in n.deliveries {
      VerifiedIsApproved(cfg, s, request.value, now, true);
      ArrivedIsVerified(cfg, s, id, request.value, now);
    }
    forall k | k in s.deliveries ensures DeliveryInv(cfg, n, k, s.deliveries[k]) {
      assert DeliveryInv(cfg, s, k, s.deliveries[k]);
    }
  }

  lemma ArrivedFrames(cfg: Config, s: System, id: nat, request: Option<Request>, now: Time)
    requires FramesInitiated(cfg, s) && FramesMatch(s) && id !in s.seen
    ensures var n := DoArrive(cfg, s, id, request, now); FramesInitiated(cfg, n) && FramesMatch(n)
  {
  }

  lemma ArrivedTokens(cfg: Config, s: System, id: nat, request: Option<Request>, now: Time)
    requires TokensDistinct(s) && FramesSent(s) && id !in s.deliveries
    ensures var n := DoArrive(cfg, s, id, request, now); TokensDistinct(n) && FramesSent(n)
  {
  }

  lemma UnseenIsAbsent(cfg: Config, s: System, id: nat)
    requires DeliveriesInv(cfg, s) && RepliesInv(s) && id !in s.seen
    ensures id !in s.deliveries && id !in s.replies
  {
    forall k | k in s.deliveries ensures k in s.seen { assert DeliveryInv(cfg, s, k, s.deliveries[k]); }
  }

  lemma ArrivedRest(cfg: Config, s: System, id: nat, request: Option<Request>, now: Time)
    requires AckedComplete(cfg, s) && RepliesInv(s) && CompletedEvidenced(s) && StartsApproved(s) && FramesOrdered(s)
    ensures var n := DoArrive(cfg, s, id, request, now);
            AckedComplete(cfg, n) && RepliesInv(n) && CompletedEvidenced(n) && StartsApproved(n) && FramesOrdered(n)
  {
  }

  lemma ArriveKeepsSafe(cfg: Config, s: System, id: nat, request: Option<Request>, now: Time)
    requires Safe(cfg, s) && NotBefore(s, now) && id !in s.seen
    requires request.Some? ==> Constructible(cfg, s, request.value)
    ensures Safe(cfg, DoArrive(cfg, s, id, request, now))
  {
    UnseenIsAbsent(cfg, s, id);
    AdvanceKeepsInv(s.history, now, cfg.retention);
    ArrivedDeliveries(cfg, s, id, request, now);
    ArrivedFrames(cfg, s, id, request, now);
    ArrivedTokens(cfg, s, id, request, now);
    ArrivedRest(cfg, s, id, request, now);
  }

  lemma LookupFacts(cfg: Config, s: System, id: nat, now: Time)
    requires NotBefore(s, now) && AtLedger(s, id, Verified)
    requires DeliveryInv(cfg, s, id, s.deliveries[id]) && CompletedEvidenced(s)
    requires s.deliveries[id].command.id in s.history.rows ==> RowInv(s.history, s.deliveries[id].command.id, cfg.retention)
    ensures LocalStep(cfg, s, DoLookup(s, id, s.deliveries[id], now), id)
  {
  }

  lemma LookupKeepsSafe(cfg: Config, s: System, id: nat, now: Time)
    requires Safe(cfg, s) && NotBefore(s, now) && AtLedger(s, id, Verified)
    ensures Safe(cfg, DoLookup(s, id, s.deliveries[id], now))
  {
    PruneKeepsInv(s.history, now, cfg.retention);
    LookupFacts(cfg, s, id, now);
    QuietStepKeepsSafe(cfg, s, DoLookup(s, id, s.deliveries[id], now), id);
  }

  lemma ReverifyFacts(cfg: Config, s: System, id: nat, now: Time)
    requires NotBefore(s, now) && id in s.deliveries && s.deliveries[id].pc == NeedClaim
    requires DeliveryInv(cfg, s, id, s.deliveries[id])
    ensures LocalStep(cfg, s, DoReverify(cfg, s, id, s.deliveries[id], now), id)
  {
  }

  lemma ReverifyKeepsSafe(cfg: Config, s: System, id: nat, now: Time)
    requires Safe(cfg, s) && NotBefore(s, now) && id in s.deliveries && s.deliveries[id].pc == NeedClaim
    ensures Safe(cfg, DoReverify(cfg, s, id, s.deliveries[id], now))
  {
    AdvanceKeepsInv(s.history, now, cfg.retention);
    ReverifyFacts(cfg, s, id, now);
    QuietStepKeepsSafe(cfg, s, DoReverify(cfg, s, id, s.deliveries[id], now), id);
  }

  lemma RefusedClaimFacts(cfg: Config, s: System, id: nat, pruneAt: Time, now: Time, minted: Token)
    requires s.history.clock <= pruneAt <= now && AtLedger(s, id, Checked)
    requires DeliveryInv(cfg, s, id, s.deliveries[id]) && CompletedEvidenced(s)
    requires !Claimable(Prune(s.history.rows, pruneAt), Digest(s.deliveries[id].command))
    requires RowInv(s.history, s.deliveries[id].command.id, cfg.retention)
    ensures LocalStep(cfg, s, DoClaim(cfg, s, id, s.deliveries[id], pruneAt, now, minted), id)
  {
  }

  lemma GrantedDeliveries(cfg: Config, s: System, id: nat, pruneAt: Time, now: Time, minted: Token)
    requires s.history.clock <= pruneAt <= now && AtLedger(s, id, Checked)
    requires minted !in s.history.grants && DeliveriesInv(cfg, s)
    requires Claimable(Prune(s.history.rows, pruneAt), Digest(s.deliveries[id].command))
    ensures DeliveriesInv(cfg, DoClaim(cfg, s, id, s.deliveries[id], pruneAt, now, minted))
  {
    var n := DoClaim(cfg, s, id, s.deliveries[id], pruneAt, now, minted);
    InitiatedExtends(s.history, n.history);
    assert DeliveryInv(cfg, s, id, s.deliveries[id]);
    assert DeliveryInv(cfg, n, id, n.deliveries[id]) by { assert FrameCount(cfg, s.deliveries[id].command) > 0; }
    forall k | k in n.deliveries ensures DeliveryInv(cfg, n, k, n.deliveries[k]) {
      assert DeliveryInv(cfg, s, k, s.deliveries[k]);
    }
  }

  /** The minted token is on no frame and in no other delivery. */
  lemma GrantedFrames(cfg: Config, s: System, n: System, id: nat, minted: Token)
    requires id in s.deliveries && s.deliveries[id].pc == Checked && DeliveryInv(cfg, s, id, s.deliveries[id])
    requires FramesMatch(s) && TokensDistinct(s) && FramesSent(s)
    requires forall f | f in s.frames :: f.token != minted
    requires forall k | k in s.deliveries :: s.deliveries[k].token != Some(minted)
    requires n.frames == s.frames && n.deliveries == s.deliveries[id := s.deliveries[id].(pc := Writing, writer := Next, token := Some(minted))]
    ensures FramesMatch(n) && TokensDistinct(n) && FramesSent(n)
  {
  }

  lemma RefusedClaimKeepsSafe(cfg: Config, s: System, id: nat, pruneAt: Time, now: Time, minted: Token)
    requires Safe(cfg, s) && s.history.clock <= pruneAt <= now && minted !in s.history.grants
    requires AtLedger(s, id, Checked)
    requires !Claimable(Prune(s.history.rows, pruneAt), Digest(s.deliveries[id].command))
    ensures Safe(cfg, DoClaim(cfg, s, id, s.deliveries[id], pruneAt, now, minted))
  {
    var d := s.deliveries[id];
    ClaimKeepsInv(s.history, Digest(d.command), cfg.retention, pruneAt, now, minted);
    RefusedClaimFacts(cfg, s, id, pruneAt, now, minted);
    QuietStepKeepsSafe(cfg, s, DoClaim(cfg, s, id, d, pruneAt, now, minted), id);
  }

  lemma GrantedClaimKeepsSafe(cfg: Config, s: System, id: nat, pruneAt: Time, now: Time, minted: Token)
    requires Safe(cfg, s) && s.history.clock <= pruneAt <= now && minted !in s.history.grants
    requires AtLedger(s, id, Checked)
    requires Claimable(Prune(s.history.rows, pruneAt), Digest(s.deliveries[id].command))
    ensures Safe(cfg, DoClaim(cfg, s, id, s.deliveries[id], pruneAt, now, minted))
  {
    var d := s.deliveries[id];
    var n := DoClaim(cfg, s, id, d, pruneAt, now, minted);
    ClaimKeepsInv(s.history, Digest(d.command), cfg.retention, pruneAt, now, minted);
    GrantedDeliveries(cfg, s, id, pruneAt, now, minted);
    UsedTokens(cfg, s);
    GrantedFrames(cfg, s, n, id, minted);
    GrantedRest(cfg, s, n);
  }

  lemma UsedTokens(cfg: Config, s: System)
    requires FramesInitiated(cfg, s) && StartsGranted(s.history) && DeliveriesInv(cfg, s)
    ensures forall f | f in s.frames :: f.token in s.history.grants
    ensures forall k | k in s.deliveries && s.deliveries[k].token.Some? :: s.deliveries[k].token.value in s.history.grants
  {
    forall k | k in s.deliveries && s.deliveries[k].token.Some?
      ensures s.deliveries[k].token.value in s.history.grants
    {
      assert DeliveryInv(cfg, s, k, s.deliveries[k]);
    }
  }

  lemma GrantedRest(cfg: Config, s: System, n: System)
    requires FramesInitiated(cfg, s) && FramesOrdered(s) && AckedComplete(cfg, s) && RepliesInv(s)
    requires CompletedEvidenced(s) && StartsApproved(s)
    requires Extends(s.history, n.history) && NoCompletion(s.history, n.history)
    requires n.frames == s.frames && n.replies == s.replies && n.acked == s.acked && n.seen == s.seen && n.approvals == s.approvals
    ensures FramesInitiated(cfg, n) && FramesOrdered(n) && AckedComplete(cfg, n) && RepliesInv(n)
    ensures CompletedEvidenced(n) && StartsApproved(n)
  {
  }

  lemma CheckIsLocal(cfg: Config, s: System, id: nat, now: Time, passed: WriterPc)
    requires NotBefore(s, now) && id in s.deliveries
    requires var d := s.deliveries[id];
             && (d.pc.Replied? ==> id in s.replies && s.replies[id] == Reply(Some(d.command), d.pc.result))
             && (d.pc.Replied? && Refuses(d.pc.result) ==> d.sent == 0)
    ensures var n := DoCheck(cfg, s, id, s.deliveries[id], now, passed);
            id in n.deliveries && Local(s, n, id, n.deliveries[id]) && NoCompletion(s.history, n.history)
            && ReplyOk(s, id, n.deliveries[id])
  {
  }

  /** A writer that passed or failed a check still fits its delivery, at any later clock. */
  lemma CheckedDelivery(cfg: Config, s: System, n: System, id: nat, before: Delivery, after: Delivery)
    requires DeliveryInv(cfg, s, id, before) && before.token.Some? && (before.writer == Next || before.writer == Marked)
    requires after == before.(writer := after.writer, clearedAt := after.clearedAt)
    requires n.history.starts == s.history.starts && n.history.grants == s.history.grants && s.history.clock <= n.history.clock
    requires n.seen == s.seen && n.approvals == s.approvals && n.replies == s.replies && n.acked == s.acked
    requires after.writer == Raised
          || (after.writer == Fenced && before.writer == Next && InTime(n.history, before.token.value))
          || (after.writer == Cleared && before.writer == Marked)
    ensures DeliveryInv(cfg, n, id, after)
  {
  }

  lemma CheckFacts(cfg: Config, s: System, id: nat, now: Time, passed: WriterPc)
    requires NotBefore(s, now) && id in s.deliveries && DeliveryInv(cfg, s, id, s.deliveries[id])
    requires s.deliveries[id].token.Some? ==>
      s.deliveries[id].token.value in s.history.grants && s.history.grants[s.deliveries[id].token.value].at <= s.history.clock
    requires (s.deliveries[id].writer == Next && passed == Fenced) || (s.deliveries[id].writer == Marked && passed == Cleared)
    ensures var n := DoCheck(cfg, s, id, s.deliveries[id], now, passed);
            id in n.deliveries && DeliveryInv(cfg, n, id, n.deliveries[id])
  {
    var n := DoCheck(cfg, s, id, s.deliveries[id], now, passed);
    CheckedDelivery(cfg, s, n, id, s.deliveries[id], n.deliveries[id]);
  }

  lemma CheckKeepsSafe(cfg: Config, s: System, id: nat, now: Time, passed: WriterPc)
    requires Safe(cfg, s) && NotBefore(s, now) && id in s.deliveries
    requires (s.deliveries[id].writer == Next && passed == Fenced) || (s.deliveries[id].writer == Marked && passed == Cleared)
    ensures Safe(cfg, DoCheck(cfg, s, id, s.deliveries[id], now, passed))
  {
    AdvanceKeepsInv(s.history, now, cfg.retention);
    assert DeliveryInv(cfg, s, id, s.deliveries[id]);
    CheckFacts(cfg, s, id, now, passed);
    CheckIsLocal(cfg, s, id, now, passed);
    QuietStepKeepsSafe(cfg, s, DoCheck(cfg, s, id, s.deliveries[id], now, passed), id);
  }

  lemma MarkFacts(cfg: Config, s: System, id: nat, now: Time)
    requires NotBefore(s, now) && id in s.deliveries && s.deliveries[id].writer == Fenced && s.deliveries[id].token.Some?
    requires DeliveryInv(cfg, s, id, s.deliveries[id]) && CompletedEvidenced(s) && StartsApproved(s) && StartedIsRecorded(s.history)
    requires s.deliveries[id].command.id in s.history.rows ==> RowInv(s.history, s.deliveries[id].command.id, cfg.retention)
    ensures var n := DoMark(s, id, s.deliveries[id], now);
            && Local(s, n, id, n.deliveries[id]) && DeliveryInv(cfg, n, id, n.deliveries[id])
            && StartsApproved(n) && CompletedEvidenced(n)
  {
    var d := s.deliveries[id];
    var n := DoMark(s, id, d, now);
    var token := d.token.value;
    assert Extends(s.history, n.history);
    InitiatedExtends(s.history, n.history);
    if Initiates(s.history.rows, d.command.id, token) {
      var added := Start(Digest(d.command), token, now);
      assert n.history.starts == s.history.starts + [added] && added in n.history.starts;
      forall x | x in n.history.starts
        ensures exists a :: a in n.approvals && a.digest == x.digest && a.issuedAt <= x.at
      {
        if x !in s.history.starts { assert x == added; }
      }
    }
  }

  lemma MarkKeepsSafe(cfg: Config, s: System, id: nat, now: Time)
    requires Safe(cfg, s) && NotBefore(s, now) && id in s.deliveries
    requires s.deliveries[id].writer == Fenced && s.deliveries[id].token.Some?
    ensures Safe(cfg, DoMark(s, id, s.deliveries[id], now))
  {
    var d := s.deliveries[id];
    var n := DoMark(s, id, d, now);
    assert DeliveryInv(cfg, s, id, d);
    MarkKeepsInv(s.history, d.command.id, d.token.value, now, cfg.retention);
    MarkFacts(cfg, s, id, now);
    LocalKeepsSafe(cfg, s, n, id, n.deliveries[id]);
  }

  lemma SendDeliveries(cfg: Config, s: System, id: nat, confirmed: bool)
    requires id in s.deliveries && s.deliveries[id].writer == Cleared && s.deliveries[id].token.Some? && DeliveriesInv(cfg, s)
    ensures DeliveriesInv(cfg, DoSend(cfg, s, id, s.deliveries[id], confirmed))
  {
    var n := DoSend(cfg, s, id, s.deliveries[id], confirmed);
    assert DeliveryInv(cfg, s, id, s.deliveries[id]);
    forall k | k in n.deliveries ensures DeliveryInv(cfg, n, k, n.deliveries[k]) {
      assert DeliveryInv(cfg, s, k, s.deliveries[k]);
    }
  }

  /** The new frame is the next one of its delivery and of its token. */
  lemma SendOrder(cfg: Config, s: System, n: System, id: nat)
    requires id in s.deliveries && id in n.deliveries && s.deliveries[id].token.Some?
    requires TokensDistinct(s) && FramesMatch(s) && FramesSent(s) && FramesOrdered(s)
    requires n.frames == s.frames + [Frame(id, Digest(s.deliveries[id].command), s.deliveries[id].token.value, s.deliveries[id].sent,
                                             s.deliveries[id].clearedAt)]
    requires n.deliveries == s.deliveries[id := n.deliveries[id]]
    requires n.deliveries[id].token == s.deliveries[id].token && n.deliveries[id].command == s.deliveries[id].command
    requires n.deliveries[id].sent == s.deliveries[id].sent + 1
    ensures TokensDistinct(n) && FramesMatch(n) && FramesSent(n) && FramesOrdered(n)
  {
    forall i, j | 0 <= i < j < |n.frames| && n.frames[i].token == n.frames[j].token
      ensures n.frames[i].index < n.frames[j].index && n.frames[i].delivery == n.frames[j].delivery
    {
      if j == |s.frames| { assert s.frames[i] in s.frames; }
    }
    SendKeepsSent(s, n, id);
  }

  lemma SendKeepsSent(s: System, n: System, id: nat)
    requires id in s.deliveries && id in n.deliveries && s.deliveries[id].token.Some? && FramesSent(s)
    requires n.frames == s.frames + [Frame(id, Digest(s.deliveries[id].command), s.deliveries[id].token.value, s.deliveries[id].sent,
                                             s.deliveries[id].clearedAt)]
    requires n.deliveries == s.deliveries[id := n.deliveries[id]]
    requires n.deliveries[id].token == s.deliveries[id].token && n.deliveries[id].command == s.deliveries[id].command
    requires n.deliveries[id].sent == s.deliveries[id].sent + 1
    ensures FramesSent(n)
  {
    var added := n.frames[|s.frames|];
    assert added in n.frames;
    forall k, i: nat | k in n.deliveries && n.deliveries[k].token.Some? && i < n.deliveries[k].sent
      ensures SentBy(n.frames, k, Digest(n.deliveries[k].command), n.deliveries[k].token.value, i)
    {
      if k != id || i < s.deliveries[id].sent {
        assert SentBy(s.frames, k, Digest(s.deliveries[k].command), s.deliveries[k].token.value, i);
        var f :| f in s.frames && f.delivery == k && f.digest == Digest(s.deliveries[k].command)
                 && f.token == s.deliveries[k].token.value && f.index == i;
        assert f in n.frames;
      }
    }
  }

  lemma SendRest(cfg: Config, s: System, n: System, added: Frame)
    requires FramesInitiated(cfg, s) && AckedComplete(cfg, s)
    requires n.history == s.history && n.acked == s.acked && n.seen == s.seen && n.replies == s.replies
    requires n.frames == s.frames + [added]
    requires Initiated(s.history, added.digest, added.token) && added.index < FrameCount(cfg, added.digest.of)
    requires added.delivery in s.seen && (added.delivery in s.replies ==> !Refuses(s.replies[added.delivery].result))
    ensures FramesInitiated(cfg, n) && AckedComplete(cfg, n)
  {
    forall t | t in n.acked ensures AllFramesOf(cfg, n.frames, n.history.grants[t].digest, t) {
      assert AllFramesOf(cfg, s.frames, s.history.grants[t].digest, t);
      forall k: nat | k < FrameCount(cfg, n.history.grants[t].digest.of)
        ensures Sent(n.frames, n.history.grants[t].digest, t, k)
      {
        assert Sent(s.frames, s.history.grants[t].digest, t, k);
      }
    }
  }

  lemma SendKeepsSafe(cfg: Config, s: System, id: nat, confirmed: bool)
    requires Safe(cfg, s) && id in s.deliveries && s.deliveries[id].writer == Cleared && s.deliveries[id].token.Some?
    ensures Safe(cfg, DoSend(cfg, s, id, s.deliveries[id], confirmed))
  {
    var d := s.deliveries[id];
    var n := DoSend(cfg, s, id, d, confirmed);
    SendDeliveries(cfg, s, id, confirmed);
    SendOrder(cfg, s, n, id);
    assert DeliveryInv(cfg, s, id, d);
    SendRest(cfg, s, n, Frame(id, Digest(d.command), d.token.value, d.sent, d.clearedAt));
  }

  lemma AckDeliveries(cfg: Config, s: System, id: nat)
    requires id in s.deliveries && s.deliveries[id].writer == AwaitAck && s.deliveries[id].token.Some? && DeliveriesInv(cfg, s)
    ensures DeliveriesInv(cfg, DoAck(s, id, s.deliveries[id]))
  {
    var n := DoAck(s, id, s.deliveries[id]);
    assert DeliveryInv(cfg, s, id, s.deliveries[id]);
    forall k | k in n.deliveries ensures DeliveryInv(cfg, n, k, n.deliveries[k]) {
      assert DeliveryInv(cfg, s, k, s.deliveries[k]);
    }
  }

  lemma AckRest(cfg: Config, s: System, id: nat)
    requires id in s.deliveries && s.deliveries[id].writer == AwaitAck && s.deliveries[id].token.Some?
    requires DeliveryInv(cfg, s, id, s.deliveries[id])
    requires FramesSent(s) && AckedComplete(cfg, s) && RepliesInv(s) && CompletedEvidenced(s)
    ensures var n := DoAck(s, id, s.deliveries[id]); AckedComplete(cfg, n) && RepliesInv(n) && CompletedEvidenced(n)
  {
    var d := s.deliveries[id];
    var n := DoAck(s, id, d);
    forall k: nat | k < FrameCount(cfg, d.command) ensures Sent(n.frames, Digest(d.command), d.token.value, k) {
      assert SentBy(s.frames, id, Digest(d.command), d.token.value, k);
    }
    forall x | Evidenced(s.history, s.acked, x) ensures Evidenced(n.history, n.acked, x) {
      var y :| y in s.history.starts && y.digest == x && y.token in s.acked;
      assert y.token in n.acked;
    }
  }

  lemma AckFrames(cfg: Config, s: System, id: nat)
    requires id in s.deliveries && s.deliveries[id].token.Some?
    requires TokensDistinct(s) && FramesMatch(s) && FramesSent(s)
    requires FramesInitiated(cfg, s) && FramesOrdered(s) && StartsApproved(s)
    ensures var n := DoAck(s, id, s.deliveries[id]);
            && TokensDistinct(n) && FramesMatch(n) && FramesSent(n)
            && FramesInitiated(cfg, n) && FramesOrdered(n) && StartsApproved(n)
  {
  }

  lemma AckKeepsSafe(cfg: Config, s: System, id: nat)
    requires Safe(cfg, s) && id in s.deliveries && s.deliveries[id].writer == AwaitAck && s.deliveries[id].token.Some?
    ensures Safe(cfg, DoAck(s, id, s.deliveries[id]))
  {
    AckDeliveries(cfg, s, id);
    AckFrames(cfg, s, id);
    AckRest(cfg, s, id);
  }

  lemma FaultFacts(cfg: Config, s: System, id: nat)
    requires id in s.deliveries && DeliveryInv(cfg, s, id, s.deliveries[id])
    ensures var n := DoLedgerFault(s, id, s.deliveries[id]); n != s ==> LocalStep(cfg, s, n, id)
    ensures var n := DoRecordFault(s, id, s.deliveries[id]); n != s ==> LocalStep(cfg, s, n, id)
    ensures Running(s.deliveries[id].writer) ==>
      LocalStep(cfg, s, Put(s, id, s.deliveries[id].(writer := Raised)), id)
  {
  }

  lemma FaultKeepsSafe(cfg: Config, s: System, id: nat)
    requires Safe(cfg, s) && id in s.deliveries
    ensures Safe(cfg, DoLedgerFault(s, id, s.deliveries[id])) && Safe(cfg, DoRecordFault(s, id, s.deliveries[id]))
    ensures Running(s.deliveries[id].writer) ==> Safe(cfg, Put(s, id, s.deliveries[id].(writer := Raised)))
  {
    FaultFacts(cfg, s, id);
    if DoLedgerFault(s, id, s.deliveries[id]) != s { QuietStepKeepsSafe(cfg, s, DoLedgerFault(s, id, s.deliveries[id]), id); }
    if DoRecordFault(s, id, s.deliveries[id]) != s { QuietStepKeepsSafe(cfg, s, DoRecordFault(s, id, s.deliveries[id]), id); }
    if Running(s.deliveries[id].writer) {
      QuietStepKeepsSafe(cfg, s, Put(s, id, s.deliveries[id].(writer := Raised)), id);
    }
  }

  /** An attempt whose row is still preparing has put nothing on the wire. */
  lemma PreparingSentNothing(cfg: Config, s: System, id: nat)
    requires id in s.deliveries && s.deliveries[id].token.Some? && DeliveryInv(cfg, s, id, s.deliveries[id])
    requires PreparingIsFirst(s.history) && StartsGranted(s.history)
    requires var d := s.deliveries[id];
             && Initiates(s.history.rows, d.command.id, d.token.value)
             && RowInv(s.history, d.command.id, cfg.retention)
    ensures s.deliveries[id].sent == 0
  {
  }

  lemma SettleIsLocal(cfg: Config, s: System, id: nat, reason: string, now: Time)
    requires NotBefore(s, now) && id in s.deliveries && s.deliveries[id].token.Some?
    ensures var n := DoSettleFailure(cfg, s, id, s.deliveries[id], reason, now);
            id in n.deliveries && Local(s, n, id, n.deliveries[id]) && NoCompletion(s.history, n.history)
  {
  }

  lemma SettleFacts(cfg: Config, s: System, id: nat, reason: string, now: Time)
    requires NotBefore(s, now) && id in s.deliveries && s.deliveries[id].pc == Writing
    requires s.deliveries[id].writer == Raised && s.deliveries[id].token.Some? && DeliveryInv(cfg, s, id, s.deliveries[id])
    requires Initiates(s.history.rows, s.deliveries[id].command.id, s.deliveries[id].token.value) ==> s.deliveries[id].sent == 0
    ensures var n := DoSettleFailure(cfg, s, id, s.deliveries[id], reason, now);
            id in n.deliveries && DeliveryInv(cfg, n, id, n.deliveries[id]) && ReplyOk(s, id, n.deliveries[id])
  {
  }

  lemma SettleFailureKeepsSafe(cfg: Config, s: System, id: nat, reason: string, now: Time)
    requires Safe(cfg, s) && NotBefore(s, now) && id in s.deliveries && s.deliveries[id].pc == Writing
    requires s.deliveries[id].writer == Raised && s.deliveries[id].token.Some?
    ensures Safe(cfg, DoSettleFailure(cfg, s, id, s.deliveries[id], reason, now))
  {
    var d := s.deliveries[id];
    FailKeepsInv(s.history, d.command.id, d.token.value, reason, cfg.retention, now);
    assert DeliveryInv(cfg, s, id, d);
    if Initiates(s.history.rows, d.command.id, d.token.value) {
      assert RowInv(s.history, d.command.id, cfg.retention);
      PreparingSentNothing(cfg, s, id);
    }
    SettleFacts(cfg, s, id, reason, now);
    SettleIsLocal(cfg, s, id, reason, now);
    QuietStepKeepsSafe(cfg, s, DoSettleFailure(cfg, s, id, d, reason, now), id);
  }

  lemma FinishFacts(cfg: Config, s: System, id: nat, writtenAt: Time, now: Time)
    requires NotBefore(s, now) && id in s.deliveries && s.deliveries[id].pc == Writing && CompletedEvidenced(s)
    requires s.deliveries[id].writer == Acknowledged && s.deliveries[id].token.Some? && DeliveryInv(cfg, s, id, s.deliveries[id])
    requires HoldsStarted(s.history.rows, s.deliveries[id].command.id, s.deliveries[id].token.value) ==>
      s.history.rows[s.deliveries[id].command.id].digest == Digest(s.deliveries[id].command)
    ensures var n := DoFinish(cfg, s, id, s.deliveries[id], writtenAt, now);
            && Local(s, n, id, n.deliveries[id]) && DeliveryInv(cfg, n, id, n.deliveries[id])
            && Evidenced(s.history, s.acked, Digest(n.deliveries[id].command)) && CompletedEvidenced(n)
  {
    var d := s.deliveries[id];
    var x :| x in s.history.starts && x.digest == Digest(d.command) && x.token == d.token.value;
    assert x.token in s.acked;
  }

  lemma FinishKeepsSafe(cfg: Config, s: System, id: nat, writtenAt: Time, now: Time)
    requires Safe(cfg, s) && NotBefore(s, now) && id in s.deliveries && s.deliveries[id].pc == Writing
    requires s.deliveries[id].writer == Acknowledged && s.deliveries[id].token.Some?
    ensures Safe(cfg, DoFinish(cfg, s, id, s.deliveries[id], writtenAt, now))
  {
    var d := s.deliveries[id];
    var n := DoFinish(cfg, s, id, d, writtenAt, now);
    CompleteKeepsInv(s.history, d.command.id, d.token.value, writtenAt, cfg.retention, now);
    assert DeliveryInv(cfg, s, id, d);
    if d.command.id in s.history.rows { assert RowInv(s.history, d.command.id, cfg.retention); }
    FinishFacts(cfg, s, id, writtenAt, now);
    LocalKeepsSafe(cfg, s, n, id, n.deliveries[id]);
  }

  lemma CancelFacts(cfg: Config, s: System, id: nat, ledgerUp: bool, now: Time)
    requires NotBefore(s, now) && id in s.deliveries && s.deliveries[id].token.Some? && DeliveryInv(cfg, s, id, s.deliveries[id])
    ensures s.deliveries[id].pc == Writing ==> LocalStep(cfg, s, DoCancel(cfg, s, id, s.deliveries[id], ledgerUp, now), id)
  {
  }

  lemma GiveUpFacts(cfg: Config, s: System, id: nat, ledgerUp: bool, now: Time)
    requires NotBefore(s, now) && id in s.deliveries && s.deliveries[id].token.Some? && DeliveryInv(cfg, s, id, s.deliveries[id])
    ensures s.deliveries[id].pc == Broken ==> LocalStep(cfg, s, DoGiveUp(cfg, s, id, s.deliveries[id], ledgerUp, now), id)
  {
  }

  lemma CancelKeepsSafe(cfg: Config, s: System, id: nat, ledgerUp: bool, now: Time)
    requires Safe(cfg, s) && NotBefore(s, now) && id in s.deliveries && s.deliveries[id].token.Some?
    requires s.deliveries[id].pc == Writing
    ensures Safe(cfg, DoCancel(cfg, s, id, s.deliveries[id], ledgerUp, now))
  {
    var d := s.deliveries[id];
    FailKeepsInv(s.history, d.command.id, d.token.value, "execution_cancelled", cfg.retention, now);
    CancelFacts(cfg, s, id, ledgerUp, now);
    QuietStepKeepsSafe(cfg, s, DoCancel(cfg, s, id, d, ledgerUp, now), id);
  }

  lemma GiveUpKeepsSafe(cfg: Config, s: System, id: nat, ledgerUp: bool, now: Time)
    requires Safe(cfg, s) && NotBefore(s, now) && id in s.deliveries && s.deliveries[id].token.Some?
    requires s.deliveries[id].pc == Broken
    ensures Safe(cfg, DoGiveUp(cfg, s, id, s.deliveries[id], ledgerUp, now))
  {
    var d := s.deliveries[id];
    FailKeepsInv(s.history, d.command.id, d.token.value, "ledger_failure", cfg.retention, now);
    GiveUpFacts(cfg, s, id, ledgerUp, now);
    QuietStepKeepsSafe(cfg, s, DoGiveUp(cfg, s, id, d, ledgerUp, now), id);
  }

  lemma CrashKeepsSafe(cfg: Config, s: System)
    requires Safe(cfg, s)
    ensures Safe(cfg, s.(up := false, deliveries := map[]))
  {
    assert AckedComplete(cfg, s.(up := false, deliveries := map[]));
  }

  lemma RestartKeepsSafe(cfg: Config, s: System, readings: map<string, Time>, now: Time)
    requires Safe(cfg, s) && NotBefore(s, now) && ReadingsFit(s.history, readings, now)
    ensures Safe(cfg, s.(history := RecoverStep(s.history, readings, cfg.retention, now), up := true))
  {
    var n := s.(history := RecoverStep(s.history, readings, cfg.retention, now), up := true);
    RecoverKeepsInv(s.history, readings, cfg.retention, now);
    DeliveriesCarryOver(cfg, s, n);
    GrantedRest(cfg, s, n);
  }

  predicate IsWriterEvent(e: Event) {
    e.Fence? || e.Mark? || e.Clear? || e.Send? || e.DeviceAck? || e.WriterFault? || e.RecordFault? || e.LedgerFault?
  }

  lemma WriterEventKeepsSafe(cfg: Config, s: System, e: Event)
    requires Safe(cfg, s) && Enabled(cfg, s, e) && IsWriterEvent(e)
    ensures Safe(cfg, Step(cfg, s, e))
  {
    match e
    case Fence(id, now) => CheckKeepsSafe(cfg, s, id, now, Fenced);
    case Mark(id, now) => MarkKeepsSafe(cfg, s, id, now);
    case Clear(id, now) => CheckKeepsSafe(cfg, s, id, now, Cleared);
    case Send(id, confirmed) => SendKeepsSafe(cfg, s, id, confirmed);
    case DeviceAck(id) => AckKeepsSafe(cfg, s, id);
    case WriterFault(id) => FaultKeepsSafe(cfg, s, id);
    case RecordFault(id) => FaultKeepsSafe(cfg, s, id);
    case LedgerFault(id) => FaultKeepsSafe(cfg, s, id);
  }

  predicate IsHandlerEvent(e: Event) {
    e.Lookup? || e.Reverify? || e.ClaimAttempt? || e.SettleFailure? || e.Finish? || e.Cancel? || e.GiveUp?
  }

  lemma HandlerEventKeepsSafe(cfg: Config, s: System, e: Event)
    requires Safe(cfg, s) && Enabled(cfg, s, e) && IsHandlerEvent(e)
    ensures Safe(cfg, Step(cfg, s, e))
  {
    match e
    case Lookup(id, now) => LookupKeepsSafe(cfg, s, id, now);
    case Reverify(id, now) => ReverifyKeepsSafe(cfg, s, id, now);
    case ClaimAttempt(id, pruneAt, now, minted) =>
      if Claimable(Prune(s.history.rows, pruneAt), Digest(s.deliveries[id].command)) {
        GrantedClaimKeepsSafe(cfg, s, id, pruneAt, now, minted);
      } else {
        RefusedClaimKeepsSafe(cfg, s, id, pruneAt, now, minted);
      }
    case SettleFailure(id, reason, now) => SettleFailureKeepsSafe(cfg, s, id, reason, now);
    case Finish(id, writtenAt, now) => FinishKeepsSafe(cfg, s, id, writtenAt, now);
    case Cancel(id, ledgerUp, now) => CancelKeepsSafe(cfg, s, id, ledgerUp, now);
    case GiveUp(id, ledgerUp, now) => GiveUpKeepsSafe(cfg, s, id, ledgerUp, now);
  }

  lemma StepKeepsSafe(cfg: Config, s: System, e: Event)
    requires Safe(cfg, s)
    ensures Safe(cfg, Step(cfg, s, e))
  {
    if !Enabled(cfg, s, e) {
    } else if IsWriterEvent(e) {
      WriterEventKeepsSafe(cfg, s, e);
    } else if IsHandlerEvent(e) {
      HandlerEventKeepsSafe(cfg, s, e);
    } else {
      match e
      case Approve(command, now) => ApproveKeepsSafe(cfg, s, command, now);
      case Arrive(id, request, now) => ArriveKeepsSafe(cfg, s, id, request, now);
      case Crash => CrashKeepsSafe(cfg, s);
      case Restart(readings, now) => RestartKeepsSafe(cfg, s, readings, now);
    }
  }
}
