/** When native frames are cleared: each one after its attempt was durably started and while the
    approval still stood. */
module WriterClearance {
  import opened Common
  import opened Authorization
  import opened CommandLedger
  import opened LedgerHistory
  import opened WriterProtocol
  import opened WriterSafety
  import opened WriterTheorems

  /** This instant lies between the durable start of the attempt and its command's deadline. */
  ghost predicate Licensed(h: History, digest: Digest, token: Token, at: Time) {
    at <= digest.of.deadline && exists x :: x in h.starts && x.digest == digest && x.token == token && x.at <= at
  }

  ghost predicate ClearedInTime(s: System) {
    && (forall id | id in s.deliveries && s.deliveries[id].writer == Cleared && s.deliveries[id].token.Some? ::
          Licensed(s.history, Digest(s.deliveries[id].command), s.deliveries[id].token.value, s.deliveries[id].clearedAt))
    && (forall f | f in s.frames :: Licensed(s.history, f.digest, f.token, f.clearedAt))
  }

  lemma LicensesLast(h: History, n: History)
    requires h.starts <= n.starts
    ensures forall d, t, at | Licensed(h, d, t, at) :: Licensed(n, d, t, at)
  {
    assert forall x | x in h.starts :: x in n.starts;
  }

  /** No event but a passed last check clears a delivery, and a frame bears its delivery's clearance. */
  ghost predicate ClearsNothingElse(s: System, n: System, e: Event) {
    && s.history.starts <= n.history.starts
    && (forall id | id in n.deliveries && n.deliveries[id].writer == Cleared ::
          (e.Clear? && e.id == id) || (id in s.deliveries && s.deliveries[id].writer == Cleared
                                       && n.deliveries[id].command == s.deliveries[id].command
                                       && n.deliveries[id].token == s.deliveries[id].token
                                       && n.deliveries[id].clearedAt == s.deliveries[id].clearedAt))
    && (e.Send? || n.frames == s.frames)
  }

  lemma CheckEventClears(cfg: Config, s: System, e: Event)
    requires Enabled(cfg, s, e) && (e.Fence? || e.Mark? || e.Clear?)
    ensures ClearsNothingElse(s, Step(cfg, s, e), e)
  {
  }

  lemma SendEventClears(cfg: Config, s: System, e: Event)
    requires Enabled(cfg, s, e) && (e.Send? || e.DeviceAck?)
    ensures ClearsNothingElse(s, Step(cfg, s, e), e)
  {
  }

  lemma FaultEventClears(cfg: Config, s: System, e: Event)
    requires Enabled(cfg, s, e) && (e.WriterFault? || e.RecordFault? || e.LedgerFault?)
    ensures ClearsNothingElse(s, Step(cfg, s, e), e)
  {
  }

  lemma LedgerEventClears(cfg: Config, s: System, e: Event)
    requires Enabled(cfg, s, e) && (e.Lookup? || e.Reverify? || e.ClaimAttempt?)
    ensures ClearsNothingElse(s, Step(cfg, s, e), e)
  {
  }

  lemma ClosingEventClears(cfg: Config, s: System, e: Event)
    requires Enabled(cfg, s, e) && (e.SettleFailure? || e.Finish?)
    ensures ClearsNothingElse(s, Step(cfg, s, e), e)
  {
  }

  lemma AbandoningEventClears(cfg: Config, s: System, e: Event)
    requires Enabled(cfg, s, e) && (e.Cancel? || e.GiveUp?)
    ensures ClearsNothingElse(s, Step(cfg, s, e), e)
  {
  }

  lemma OtherEventClears(cfg: Config, s: System, e: Event)
    requires Enabled(cfg, s, e) && (e.Approve? || e.Arrive? || e.Crash? || e.Restart?)
    ensures ClearsNothingElse(s, Step(cfg, s, e), e)
  {
  }

  lemma StepClears(cfg: Config, s: System, e: Event)
    ensures ClearsNothingElse(s, Step(cfg, s, e), e)
  {
    if Enabled(cfg, s, e) {
      if e.Fence? || e.Mark? || e.Clear? {
        CheckEventClears(cfg, s, e);
      } else if e.Send? || e.DeviceAck? {
        SendEventClears(cfg, s, e);
      } else if e.WriterFault? || e.RecordFault? || e.LedgerFault? {
        FaultEventClears(cfg, s, e);
      } else if e.Lookup? || e.Reverify? || e.ClaimAttempt? {
        LedgerEventClears(cfg, s, e);
      } else if e.SettleFailure? || e.Finish? {
        ClosingEventClears(cfg, s, e);
      } else if e.Cancel? || e.GiveUp? {
        AbandoningEventClears(cfg, s, e);
      } else {
        OtherEventClears(cfg, s, e);
      }
    }
  }

  /** The last check happens after the start it follows and passes only before the deadline. */
  lemma LastCheckLicenses(cfg: Config, s: System, id: nat, now: Time)
    requires Enabled(cfg, s, Clear(id, now)) && DeliveryInv(cfg, s, id, s.deliveries[id]) && StartsGranted(s.history)
    requires Step(cfg, s, Clear(id, now)).deliveries[id].writer == Cleared
    ensures var d := Step(cfg, s, Clear(id, now)).deliveries[id];
            d.token.Some? && Licensed(s.history, Digest(d.command), d.token.value, d.clearedAt)
  {
    var d := s.deliveries[id];
    var x :| x in s.history.starts && x.digest == Digest(d.command) && x.token == d.token.value;
    assert x.at <= now;
  }

  lemma ClearanceCarriesOver(s: System, n: System, e: Event)
    requires ClearedInTime(s) && ClearsNothingElse(s, n, e)
    requires e.Clear? && e.id in n.deliveries && n.deliveries[e.id].writer == Cleared && n.deliveries[e.id].token.Some? ==>
      Licensed(n.history, Digest(n.deliveries[e.id].command), n.deliveries[e.id].token.value, n.deliveries[e.id].clearedAt)
    requires e.Send? ==> forall f | f in n.frames && f !in s.frames :: Licensed(n.history, f.digest, f.token, f.clearedAt)
    ensures ClearedInTime(n)
  {
    LicensesLast(s.history, n.history);
  }

  lemma SentFrameIsLicensed(cfg: Config, s: System, id: nat, confirmed: bool)
    requires ClearedInTime(s) && Enabled(cfg, s, Send(id, confirmed))
    ensures var n := Step(cfg, s, Send(id, confirmed));
            forall f | f in n.frames && f !in s.frames :: Licensed(n.history, f.digest, f.token, f.clearedAt)
  {
  }

  lemma StepKeepsClearance(cfg: Config, s: System, e: Event)
    requires DeliveriesInv(cfg, s) && StartsGranted(s.history) && ClearedInTime(s)
    ensures ClearedInTime(Step(cfg, s, e))
  {
    var n := Step(cfg, s, e);
    if Enabled(cfg, s, e) {
      StepClears(cfg, s, e);
      if e.Clear? && n.deliveries[e.id].writer == Cleared {
        assert DeliveryInv(cfg, s, e.id, s.deliveries[e.id]);
        LastCheckLicenses(cfg, s, e.id, e.now);
      }
      if e.Send? {
        SentFrameIsLicensed(cfg, s, e.id, e.confirmed);
      }
      ClearanceCarriesOver(s, n, e);
    }
  }

  lemma {:induction false} RunIsCleared(cfg: Config, events: seq<Event>)
    requires cfg.retention > 0
    ensures ClearedInTime(Run(cfg, events))
  {
    if events != [] {
      RunIsCleared(cfg, events[..|events| - 1]);
      RunIsSafe(cfg, events[..|events| - 1]);
      StepKeepsClearance(cfg, Run(cfg, events[..|events| - 1]), events[|events| - 1]);
    }
  }

  /** In every run each native frame passed its last evidence check after the durable start of its
      attempt and not past its command's deadline. */
  lemma FramesAreCleared(cfg: Config, events: seq<Event>, f: Frame)
    requires cfg.retention > 0 && f in Run(cfg, events).frames
    ensures f.clearedAt <= f.digest.of.deadline
    ensures exists x :: x in Run(cfg, events).history.starts && x.digest == f.digest && x.token == f.token
                        && x.at <= f.clearedAt
  {
    RunIsCleared(cfg, events);
    assert Licensed(Run(cfg, events).history, f.digest, f.token, f.clearedAt);
  }
}
