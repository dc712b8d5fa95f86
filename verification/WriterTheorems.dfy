/** What the writer guarantees about every run: any interleaving of any number of deliveries,
    duplicates, cancellations, faults, crashes and restarts. */
module WriterTheorems {
  import opened Common
  import opened Authorization
  import opened CommandLedger
  import opened LedgerHistory
  import opened WriterProtocol
  import opened WriterSafety

  function Run(cfg: Config, events: seq<Event>): System {
    if events == [] then INITIAL
    else Step(cfg, Run(cfg, events[..|events| - 1]), events[|events| - 1])
  }

  /** Every run is safe, and none of the ledger and token guards ever holds an event back. */
  lemma {:induction false} RunIsSafe(cfg: Config, events: seq<Event>)
    requires cfg.retention > 0
    ensures Safe(cfg, Run(cfg, events)) && Tokened(Run(cfg, events))
  {
    if events != [] {
      var before := events[..|events| - 1];
      RunIsSafe(cfg, before);
      StepKeepsSafe(cfg, Run(cfg, before), events[|events| - 1]);
    }
    SafeIsTokened(cfg, Run(cfg, events));
  }

  lemma RunExtends(cfg: Config, events: seq<Event>, e: Event)
    ensures Run(cfg, events + [e]) == Step(cfg, Run(cfg, events), e)
  {
    DropLast(events, e);
  }

  /** At most one attempt of a command is ever initiated, in any run. */
  lemma AtMostOneInitiation(cfg: Config, events: seq<Event>)
    requires cfg.retention > 0
    ensures var starts := Run(cfg, events).history.starts;
            forall i, j | 0 <= i < |starts| && 0 <= j < |starts| && starts[i].digest == starts[j].digest :: i == j
  {
    RunIsSafe(cfg, events);
  }

  /** Every native frame of a command carries the token of its one initiation, and each frame
      position is used at most once: payload before the frame that commits it. */
  lemma FramesCarryTheInitiation(cfg: Config, events: seq<Event>)
    requires cfg.retention > 0
    ensures var s := Run(cfg, events);
            && (forall f | f in s.frames ::
                  Initiated(s.history, f.digest, f.token) && f.index < FrameCount(cfg, f.digest.of))
            && forall i, j | 0 <= i < j < |s.frames| && s.frames[i].digest == s.frames[j].digest ::
                 && s.frames[i].token == s.frames[j].token
                 && s.frames[i].delivery == s.frames[j].delivery
                 && s.frames[i].index < s.frames[j].index
  {
    var s := Run(cfg, events);
    RunIsSafe(cfg, events);
    SafeFrames(cfg, s);
    forall i, j | 0 <= i < j < |s.frames| && s.frames[i].digest == s.frames[j].digest
      ensures s.frames[i].token == s.frames[j].token && s.frames[i].delivery == s.frames[j].delivery
              && s.frames[i].index < s.frames[j].index
    {
      FramesAgree(cfg, s, i, j);
    }
  }

  lemma SafeFrames(cfg: Config, s: System)
    requires Safe(cfg, s)
    ensures FramesInitiated(cfg, s) && FramesOrdered(s) && StartedOnce(s.history)
  {
  }

  lemma FramesAgree(cfg: Config, s: System, i: nat, j: nat)
    requires FramesInitiated(cfg, s) && FramesOrdered(s) && StartedOnce(s.history)
    requires i < j < |s.frames| && s.frames[i].digest == s.frames[j].digest
    ensures s.frames[i].token == s.frames[j].token && s.frames[i].delivery == s.frames[j].delivery
    ensures s.frames[i].index < s.frames[j].index
  {
    var f, g := s.frames[i], s.frames[j];
    assert f in s.frames && g in s.frames;
    var x :| 0 <= x < |s.history.starts| && s.history.starts[x].digest == f.digest && s.history.starts[x].token == f.token;
    var y :| 0 <= y < |s.history.starts| && s.history.starts[y].digest == g.digest && s.history.starts[y].token == g.token;
    assert x == y;
  }

  /** Two initiations under one command id are different commands more than the retention apart. */
  lemma ReusedIdsAreFarApart(cfg: Config, events: seq<Event>)
    requires cfg.retention > 0
    ensures var starts := Run(cfg, events).history.starts;
            forall i, j | 0 <= i < j < |starts| && starts[i].digest.of.id == starts[j].digest.of.id ::
              starts[i].digest != starts[j].digest && starts[i].at + cfg.retention < starts[j].at
  {
    RunIsSafe(cfg, events);
  }

  /** Nothing is initiated without an approval of exactly that command, signed beforehand. */
  lemma OnlyApprovedCommandsStart(cfg: Config, events: seq<Event>)
    requires cfg.retention > 0
    ensures var s := Run(cfg, events);
            forall x | x in s.history.starts ::
              exists a :: a in s.approvals && Authentic(cfg, a) && a.digest == x.digest && a.issuedAt <= x.at
  {
    var s := Run(cfg, events);
    RunIsSafe(cfg, events);
    forall x | x in s.history.starts
      ensures exists a :: a in s.approvals && Authentic(cfg, a) && a.digest == x.digest && a.issuedAt <= x.at
    {
      var a :| a in s.approvals && a.digest == x.digest && a.issuedAt <= x.at;
      assert Authentic(cfg, a);
    }
  }

  /** A reply of completion, fresh or replayed, names a command that was initiated, sent whole
      and acknowledged by the device; a refusal or a conflict names a delivery that sent nothing. */
  lemma RepliesAreHonest(cfg: Config, events: seq<Event>, id: nat)
    requires cfg.retention > 0 && id in Run(cfg, events).replies
    ensures var s := Run(cfg, events);
            var r := s.replies[id];
            && (r.result.outcome == Executed ==>
                  && r.result.writtenAt.Some? && r.command.Some?
                  && exists x :: x in s.history.starts && x.digest == Digest(r.command.value) && x.token in s.acked
                       && AllFramesOf(cfg, s.frames, x.digest, x.token))
            && (Refuses(r.result) ==> forall f | f in s.frames :: f.delivery != id)
  {
    var s := Run(cfg, events);
    RunIsSafe(cfg, events);
    var r := s.replies[id];
    if r.result.outcome == Executed {
      var x :| x in s.history.starts && x.digest == Digest(r.command.value) && x.token in s.acked;
      assert StartsGranted(s.history);
      assert AllFramesOf(cfg, s.frames, x.digest, x.token);
    }
  }

  lemma HandlerEventBinds(cfg: Config, s: System, e: Event)
    requires cfg.retention > 0 && Enabled(cfg, s, e) && (e.Lookup? || e.Reverify? || e.ClaimAttempt?)
    ensures Binds(s.history, Step(cfg, s, e).history)
  {
    match e
    case Lookup(_, now) => TransactionsBind(s.history, now);
    case Reverify(_, now) => TransactionsBind(s.history, now);
    case ClaimAttempt(id, pruneAt, now, minted) =>
      ClaimBinds(s.history, Digest(s.deliveries[id].command), cfg.retention, pruneAt, now, minted);
  }

  lemma SettlementEventBinds(cfg: Config, s: System, e: Event)
    requires cfg.retention > 0 && Enabled(cfg, s, e)
    requires e.SettleFailure? || e.Finish? || e.Cancel? || e.GiveUp?
    ensures Binds(s.history, Step(cfg, s, e).history)
  {
    var d := s.deliveries[e.id];
    TransactionsBind(s.history, s.history.clock);
    SettlementsBind(s.history, d.command.id, d.token.value, cfg.retention, e.now);
  }

  lemma WriterEventBinds(cfg: Config, s: System, e: Event)
    requires cfg.retention > 0 && Enabled(cfg, s, e) && IsWriterEvent(e)
    ensures Binds(s.history, Step(cfg, s, e).history)
  {
    TransactionsBind(s.history, if e.Fence? || e.Mark? || e.Clear? then e.now else s.history.clock);
  }

  lemma StepBinds(cfg: Config, s: System, e: Event)
    requires cfg.retention > 0
    ensures Binds(s.history, Step(cfg, s, e).history)
  {
    if !Enabled(cfg, s, e) || e.Crash? {
      TransactionsBind(s.history, s.history.clock);
    } else if IsWriterEvent(e) {
      WriterEventBinds(cfg, s, e);
    } else if e.SettleFailure? || e.Finish? || e.Cancel? || e.GiveUp? {
      SettlementEventBinds(cfg, s, e);
    } else if e.Restart? {
      RecoverBinds(s.history, e.readings, cfg.retention, e.now);
    } else if e.Approve? || e.Arrive? {
      TransactionsBind(s.history, e.now);
    } else {
      HandlerEventBinds(cfg, s, e);
    }
  }

  lemma RunSplits(cfg: Config, events: seq<Event>, more: seq<Event>)
    requires more != []
    ensures Run(cfg, events + more) == Step(cfg, Run(cfg, events + more[..|more| - 1]), more[|more| - 1])
  {
    SplitLast(events, more);
    RunExtends(cfg, events + more[..|more| - 1], more[|more| - 1]);
  }

  lemma NextBinds(cfg: Config, h: History, s: System, e: Event)
    requires cfg.retention > 0 && Binds(h, s.history)
    ensures Binds(h, Step(cfg, s, e).history)
  {
    StepBinds(cfg, s, e);
    BindsTransitively(h, s.history, Step(cfg, s, e).history);
  }

  lemma {:induction false} RunBinds(cfg: Config, events: seq<Event>, more: seq<Event>)
    requires cfg.retention > 0
    ensures Binds(Run(cfg, events).history, Run(cfg, events + more).history)
  {
    if more == [] {
      assert events + more == events;
      TransactionsBind(Run(cfg, events).history, Run(cfg, events).history.clock);
    } else {
      RunBinds(cfg, events, more[..|more| - 1]);
      NextBinds(cfg, Run(cfg, events).history, Run(cfg, events + more[..|more| - 1]), more[|more| - 1]);
      RunSplits(cfg, events, more);
    }
  }

  /** However the run goes on, until a completed row's keep time has passed its command is
      answered with the same result, and any other command under its id with a conflict. */
  lemma CompletionReplays(cfg: Config, events: seq<Event>, more: seq<Event>, id: string, result: WriteResult, other: Digest)
    requires cfg.retention > 0
    requires var h := Run(cfg, events).history;
             && id in h.rows && h.rows[id].state == Completed && h.rows[id].result == Some(result)
             && Run(cfg, events + more).history.clock <= h.rows[id].keepUntil
    ensures var h := Run(cfg, events).history;
            var n := Run(cfg, events + more).history;
            && id in n.rows && WellFormed(n.rows[id])
            && result.writtenAt.Some?
            && ResultFor(n.rows[id], h.rows[id].digest) == WriteResult(Executed, result.writtenAt, result.reason, false, true)
            && (other != h.rows[id].digest ==> ResultFor(n.rows[id], other).outcome == Conflict)
  {
    var h := Run(cfg, events).history;
    RunIsSafe(cfg, events);
    RunBinds(cfg, events, more);
    assert RowInv(h, id, cfg.retention);
  }

  // ----- how long rows are kept -----

  lemma SettlementEventKeepsGrants(cfg: Config, s: System, e: Event)
    requires KeptFromGrants(s.history, cfg.retention) && Enabled(cfg, s, e)
    requires e.SettleFailure? || e.Finish? || e.Cancel? || e.GiveUp?
    ensures KeptFromGrants(Step(cfg, s, e).history, cfg.retention)
  {
    var d := s.deliveries[e.id];
    SettlementsKeepGrants(s.history, d.command.id, d.token.value, cfg.retention, e.now);
  }

  lemma ClaimEventKeepsGrants(cfg: Config, s: System, e: Event)
    requires Inv(s.history, cfg.retention) && KeptFromGrants(s.history, cfg.retention) && Enabled(cfg, s, e) && e.ClaimAttempt?
    ensures KeptFromGrants(Step(cfg, s, e).history, cfg.retention)
  {
    forall id | id in s.history.rows ensures s.history.rows[id].digest.of.id == id {
      assert RowInv(s.history, id, cfg.retention);
    }
    ClaimKeepsGrants(s.history, Digest(s.deliveries[e.id].command), cfg.retention, e.pruneAt, e.now, e.minted);
  }

  lemma QuietEventKeepsGrants(cfg: Config, s: System, e: Event)
    requires KeptFromGrants(s.history, cfg.retention) && Enabled(cfg, s, e)
    requires IsWriterEvent(e) || e.Approve? || e.Arrive? || e.Lookup? || e.Reverify?
    ensures KeptFromGrants(Step(cfg, s, e).history, cfg.retention)
  {
    if e.Approve? || e.Arrive? || e.Lookup? || e.Reverify? || e.Fence? || e.Mark? || e.Clear? {
      AdvancesKeepGrants(s.history, e.now, cfg.retention);
    }
  }

  lemma StepKeepsGrants(cfg: Config, s: System, e: Event)
    requires Inv(s.history, cfg.retention) && KeptFromGrants(s.history, cfg.retention)
    ensures KeptFromGrants(Step(cfg, s, e).history, cfg.retention)
  {
    if Enabled(cfg, s, e) {
      if e.SettleFailure? || e.Finish? || e.Cancel? || e.GiveUp? {
        SettlementEventKeepsGrants(cfg, s, e);
      } else if e.Restart? {
        RecoverKeepsGrants(s.history, e.readings, cfg.retention, e.now);
      } else if e.ClaimAttempt? {
        ClaimEventKeepsGrants(cfg, s, e);
      } else if !e.Crash? {
        QuietEventKeepsGrants(cfg, s, e);
      }
    }
  }

  lemma {:induction false} RunKeepsGrants(cfg: Config, events: seq<Event>)
    requires cfg.retention > 0
    ensures KeptFromGrants(Run(cfg, events).history, cfg.retention)
  {
    if events != [] {
      RunKeepsGrants(cfg, events[..|events| - 1]);
      RunIsSafe(cfg, events[..|events| - 1]);
      StepKeepsGrants(cfg, Run(cfg, events[..|events| - 1]), events[|events| - 1]);
    }
  }

  /** A row is kept for the retention past its command's deadline and past every claim of it. */
  lemma RowsOutliveDeadlineAndClaims(cfg: Config, events: seq<Event>, id: string)
    requires cfg.retention > 0 && id in Run(cfg, events).history.rows
    ensures var h := Run(cfg, events).history;
            var row := h.rows[id];
            && row.digest.of.id == id
            && row.keepUntil >= row.digest.of.deadline + cfg.retention
            && forall t | t in h.grants && h.grants[t].digest == row.digest :: row.keepUntil >= h.grants[t].at + cfg.retention
  {
    RunIsSafe(cfg, events);
    RunKeepsGrants(cfg, events);
    assert RowInv(Run(cfg, events).history, id, cfg.retention);
  }

  /** This event closes the attempt that holds its command's row. */
  predicate Closes(cfg: Config, s: System, e: Event) {
    && Enabled(cfg, s, e)
    && match e
       case SettleFailure(id, _, _) => Holds(s.history.rows, s.deliveries[id].command.id, s.deliveries[id].token.value)
       case Finish(id, _, _) => HoldsStarted(s.history.rows, s.deliveries[id].command.id, s.deliveries[id].token.value)
       case Cancel(id, ledgerUp, _) =>
         ledgerUp && Holds(s.history.rows, s.deliveries[id].command.id, s.deliveries[id].token.value)
       case GiveUp(id, ledgerUp, _) =>
         ledgerUp && Holds(s.history.rows, s.deliveries[id].command.id, s.deliveries[id].token.value)
       case _ => false
  }

  lemma ClosingSettles(cfg: Config, s: System, e: Event)
    requires Closes(cfg, s, e)
    ensures var rows := Step(cfg, s, e).history.rows;
            var id := s.deliveries[e.id].command.id;
            && id in rows && !Active(rows[id].state) && rows[id].digest == s.history.rows[id].digest
            && rows[id].keepUntil >= e.now + cfg.retention
  {
  }

  /** A settled row stays for the retention after its settlement, however the run goes on, under the
      same command and with a keep time that never falls. */
  lemma SettledRowsAreKept(cfg: Config, events: seq<Event>, e: Event, more: seq<Event>, s: System, n: History, m: History)
    requires cfg.retention > 0 && s == Run(cfg, events) && Closes(cfg, s, e)
    requires n == Run(cfg, events + [e]).history && m == Run(cfg, (events + [e]) + more).history
    ensures var id := s.deliveries[e.id].command.id;
            && id in n.rows && n.rows[id].keepUntil >= e.now + cfg.retention
            && (m.clock <= n.rows[id].keepUntil ==>
                  && id in m.rows && m.rows[id].digest == n.rows[id].digest
                  && m.rows[id].keepUntil >= n.rows[id].keepUntil)
  {
    RunExtends(cfg, events, e);
    ClosingSettles(cfg, s, e);
    RunBinds(cfg, events + [e], more);
  }

  /** Told again: what a delivery hears that found the outcome in the ledger. */
  predicate Reported(d: Delivery) {
    && d.pc.Replied? && d.pc.result.replayed
    && (d.pc.result.outcome == Executed || d.pc.result.outcome == Pending || d.pc.result.outcome == Indeterminate)
  }

  lemma LookupReports(cfg: Config, s: System, x: Start, id: nat, now: Time)
    requires Inv(s.history, cfg.retention) && x in s.history.starts && Enabled(cfg, s, Lookup(id, now))
    requires Digest(s.deliveries[id].command) == x.digest && now <= x.digest.of.deadline + cfg.retention
    ensures Reported(Step(cfg, s, Lookup(id, now)).deliveries[id])
  {
    LookupFinds(s.history, cfg.retention, x, now, Prune(s.history.rows, now));
  }

  lemma LookupFinds(h: History, retention: Time, x: Start, now: Time, rows: Rows)
    requires Inv(h, retention) && x in h.starts && h.clock <= now <= x.digest.of.deadline + retention
    requires rows == Prune(h.rows, now)
    ensures x.digest.of.id in rows && WellFormed(rows[x.digest.of.id])
    ensures var r := ResultFor(rows[x.digest.of.id], x.digest);
            r.replayed && !r.retryable && (r.outcome == Executed || r.outcome == Pending || r.outcome == Indeterminate)
  {
    PruneKeepsInv(h, now, retention);
    var n := PruneStep(h, now);
    assert Shielded(n.rows, x, retention);
    assert RowInv(n, x.digest.of.id, retention);
  }

  /** While the row of its initiation stands, a command is reported exactly until that row's keep
      time has passed, and for as long as the attempt is open. */
  lemma ReportedUntilForgotten(cfg: Config, events: seq<Event>, s: System, x: Start, id: nat, now: Time)
    requires cfg.retention > 0 && s == Run(cfg, events)
    requires x in s.history.starts && Enabled(cfg, s, Lookup(id, now))
    requires Digest(s.deliveries[id].command) == x.digest && Shielded(s.history.rows, x, cfg.retention)
    ensures var row := s.history.rows[x.digest.of.id];
            var d := Step(cfg, s, Lookup(id, now)).deliveries[id];
            && (Reported(d) <==> row.state == Started || now <= row.keepUntil)
            && (!Reported(d) ==> d.pc == NeedClaim)
  {
    RunIsSafe(cfg, events);
    assert RowInv(s.history, x.digest.of.id, cfg.retention);
  }

  /** A delivery of an initiated command that is let past the ledger came after the retention, and
      is refused as not executed although the command was: the refusal is about that delivery. */
  lemma ForgottenInitiationsAreRefused(cfg: Config, events: seq<Event>, s: System, x: Start, id: nat, now: Time,
                                       later: Time, n: System)
    requires cfg.retention > 0 && s == Run(cfg, events) && n == Step(cfg, s, Lookup(id, now))
    requires x in s.history.starts && Enabled(cfg, s, Lookup(id, now)) && now <= later
    requires Digest(s.deliveries[id].command) == x.digest && n.deliveries[id].pc == NeedClaim
    ensures now > x.digest.of.deadline + cfg.retention
    ensures var r := Step(cfg, n, Reverify(id, later));
            id in r.replies && r.replies[id].result == Refusal("ValueError") && r.history.starts == s.history.starts
  {
    if now <= x.digest.of.deadline + cfg.retention {
      RunIsSafe(cfg, events);
      LookupReports(cfg, s, x, id, now);
      assert false;
    }
    assert !Passes(cfg, n.deliveries[id], later);
  }
}
