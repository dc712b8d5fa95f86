/** What the consumer must do over whole runs: which deliveries become commands, when a waiting
    command is offered for sending, and what each result makes of it. */
module InboxProgress {
  import opened Common
  import opened Authorization
  import opened InspectionCodec
  import opened ConsumerStore
  import opened InspectionOwnership

  // ----- deliveries -----

  /** Another inspection of this bottle was owned within the age limit and ten seconds. */
  ghost predicate BottleOwned(inbox: Inbox, event: Inspection, maxAge: Time, now: Time) {
    exists k :: k in inbox && inbox[k].received >= now - maxAge - 10 * SECOND
                && inbox[k].event.id.session == event.id.session && inbox[k].event.bottle == event.bottle
  }

  /** The inspection is new, fresh and failed, and nothing has been done about its bottle. */
  ghost predicate Needed(cfg: Settings, inbox: Inbox, event: Inspection, now: Time) {
    && event.id !in inbox && !event.passed && event.at <= now < event.at + cfg.maxAge
    && !BottleOwned(inbox, event, cfg.maxAge, now)
  }

  lemma NewIdIsUnused(s: Consumer, ulid: string)
    requires RowsKnown(s) && forall x | x in s.issued :: x.command.id != ulid
    ensures !CommandIdUsed(s.inbox, ulid)
  {
  }

  lemma RunIssues(cfg: Settings, events: seq<Event>, s: Consumer, ulid: string)
    requires AgeLimit(cfg.maxAge) && s == Run(cfg, events) && forall x | x in s.issued :: x.command.id != ulid
    ensures !CommandIdUsed(s.inbox, ulid)
  {
    RunKeepsInv(cfg, events);
    NewIdIsUnused(s, ulid);
  }

  lemma NeededIsWaiting(cfg: Settings, inbox: Inbox, event: Inspection, now: Time)
    requires event.id !in inbox
    ensures Disposed(inbox, event, now, cfg.maxAge) == Waiting <==> Needed(cfg, inbox, event, now)
  {
  }

  /** The consumer's own request for the failed bottle. */
  function RejectCommand(cfg: Settings, event: Inspection, ulid: string, now: Time): Command {
    Command(ulid, "decision-agent-stub", cfg.target, "int64", event.bottle, now, event.at + cfg.maxAge)
  }

  lemma DeliveryIssues(cfg: Settings, s: Consumer, event: Inspection, ulid: string, baseline: Option<int>, now: Time,
                       n: Consumer)
    requires Enabled(s, Deliver(event, ulid, baseline, now)) && !CommandIdUsed(s.inbox, ulid)
    requires n == Step(cfg, s, Deliver(event, ulid, baseline, now))
    ensures if Needed(cfg, s.inbox, event, now) && |WaitingIds(s.inbox)| < 128
            then && n.issued == s.issued + [Issue(event, RejectCommand(cfg, event, ulid, now), now)]
                 && event.id in n.inbox
                 && n.inbox[event.id] == Row(event, now, Waiting, Some(RejectCommand(cfg, event, ulid, now)), baseline, 0)
            else n.issued == s.issued
  {
    if event.id !in s.inbox {
      NeededIsWaiting(cfg, s.inbox, event, now);
    }
  }

  /** A delivery creates a command exactly when it is needed and the outbox has room: the consumer's
      own request for that bottle at the configured target, by the inspection's time and the age limit. */
  lemma NeededCommandsAreIssued(cfg: Settings, events: seq<Event>, event: Inspection, ulid: string, baseline: Option<int>,
                                now: Time, s: Consumer, n: Consumer)
    requires AgeLimit(cfg.maxAge) && s == Run(cfg, events) && Enabled(s, Deliver(event, ulid, baseline, now))
    requires n == Step(cfg, s, Deliver(event, ulid, baseline, now))
    ensures var command := Command(ulid, "decision-agent-stub", cfg.target, "int64", event.bottle, now,
                                   event.at + cfg.maxAge);
            if Needed(cfg, s.inbox, event, now) && |WaitingIds(s.inbox)| < 128
            then && n.issued == s.issued + [Issue(event, command, now)]
                 && event.id in n.inbox && n.inbox[event.id] == Row(event, now, Waiting, Some(command), baseline, 0)
            else n.issued == s.issued
  {
    RunIssues(cfg, events, s, ulid);
    DeliveryIssues(cfg, s, event, ulid, baseline, now, n);
  }

  /** How an inspection is filed that needs no command. */
  ghost function Settled(cfg: Settings, inbox: Inbox, event: Inspection, now: Time): Disposition {
    if now < event.at then Future
    else if now >= event.at + cfg.maxAge then Expired
    else if event.passed then Passed
    else BottleDuplicate
  }

  /** Every delivery is owned but two: one whose identity is filed with other contents, and one that
      needs a command while the outbox is full. An owned identity is never filed anew, and a new one
      also clears away every settled row more than a day old. */
  lemma DeliveriesAreFiled(cfg: Settings, events: seq<Event>, event: Inspection, ulid: string, baseline: Option<int>,
                           now: Time, s: Consumer, n: Consumer)
    requires AgeLimit(cfg.maxAge) && s == Run(cfg, events) && Enabled(s, Deliver(event, ulid, baseline, now))
    requires n == Step(cfg, s, Deliver(event, ulid, baseline, now))
    ensures event.id in s.inbox ==>
              n.inbox == s.inbox && n.owned == (if s.inbox[event.id].event == event then s.owned + {event} else s.owned)
    ensures Needed(cfg, s.inbox, event, now) && |WaitingIds(s.inbox)| >= 128 ==> n.inbox == s.inbox && n.owned == s.owned
    ensures event.id !in s.inbox && !Needed(cfg, s.inbox, event, now) ==>
              && event.id in n.inbox && event in n.owned
              && n.inbox[event.id] == Row(event, now, Settled(cfg, s.inbox, event, now), None, baseline, 0)
    ensures event.id !in s.inbox && event.id in n.inbox ==>
              forall id | id in s.inbox ::
                && (id in n.inbox <==> s.inbox[id].disposition == Waiting || s.inbox[id].received >= now - 86_400 * SECOND)
                && (id in n.inbox ==> n.inbox[id] == s.inbox[id])
  {
    RunIssues(cfg, events, s, ulid);
    if event.id !in s.inbox {
      NeededIsWaiting(cfg, s.inbox, event, now);
    }
  }

  // ----- sending -----

  /** When the row now filed under this identity was last sent: the latest sending since it was filed. */
  function LatestSending(cfg: Settings, events: seq<Event>, id: InspectionId): Option<Time> {
    if events == [] then None
    else
      var before, e := events[..|events| - 1], events[|events| - 1];
      if e.MarkSent? && e.id == id && Enabled(Run(cfg, before), e) && id in Run(cfg, before).inbox then Some(e.now)
      else if id !in Run(cfg, events).inbox then None
      else LatestSending(cfg, before, id)
  }

  function SentAt(sending: Option<Time>): Time {
    if sending.Some? then sending.value else 0
  }

  /** Only a sending changes when a filed row was sent, and a row is filed as never sent. */
  lemma StepSends(cfg: Settings, s: Consumer, e: Event, id: InspectionId)
    requires id in Step(cfg, s, e).inbox
    ensures Step(cfg, s, e).inbox[id].lastSent == (if e.MarkSent? && e.id == id && Enabled(s, e) then e.now
                                                   else if id in s.inbox then s.inbox[id].lastSent else 0)
  {
  }

  lemma {:induction false} SendingsAreRemembered(cfg: Settings, events: seq<Event>, id: InspectionId)
    ensures id in Run(cfg, events).inbox ==> Run(cfg, events).inbox[id].lastSent == SentAt(LatestSending(cfg, events, id))
    ensures id !in Run(cfg, events).inbox ==> LatestSending(cfg, events, id) == None
  {
    if events != [] {
      var before, e := events[..|events| - 1], events[|events| - 1];
      SendingsAreRemembered(cfg, before, id);
      if id in Run(cfg, events).inbox {
        StepSends(cfg, Run(cfg, before), e, id);
      }
    }
  }

  /** In every run a waiting command is offered exactly while its inspection is at most a day old and
      its latest sending, if it was ever sent, lies more than a second back. */
  lemma OfferedExactlyWhenDue(cfg: Settings, events: seq<Event>, id: InspectionId, now: Time, s: Consumer)
    requires s == Run(cfg, events) && id in s.inbox && now > SECOND
    ensures id in ReadyIds(GivenUp(s.inbox, now), now)
       <==> && s.inbox[id].disposition == Waiting
            && s.inbox[id].received >= now - 86_400 * SECOND
            && match LatestSending(cfg, events, id)
               case None => true
               case Some(sent) => sent + SECOND < now
  {
    SendingsAreRemembered(cfg, events, id);
  }

  /** A command that has waited more than a day is given up as unknown, and no other row changes. */
  lemma OldCommandsAreGivenUp(cfg: Settings, events: seq<Event>, id: InspectionId, now: Time, s: Consumer, n: Consumer)
    requires s == Run(cfg, events) && Enabled(s, Resend(now)) && id in s.inbox && n == Step(cfg, s, Resend(now))
    ensures n.inbox.Keys == s.inbox.Keys
    ensures n.inbox[id] == if s.inbox[id].disposition == Waiting && s.inbox[id].received < now - 86_400 * SECOND
                           then s.inbox[id].(disposition := Unknown) else s.inbox[id]
  {
  }

  // ----- results -----

  /** The result answers this command in every field that both carry. */
  predicate Answers(r: CommandResult, c: Command) {
    r.id == c.id && r.requester == c.requester && r.target == c.target && r.value == c.value && r.valueType == c.valueType
  }

  /** What a result makes of the row whose command it answers: completion needs its time and is final,
      a refusal and an unknown outcome settle anything else, and a pending one settles nothing. */
  function Outcome(row: Row, r: CommandResult): Disposition {
    if r.verdict == Approve && r.writtenAt.Some? then Completed
    else if r.verdict == Reject && row.disposition != Completed then Refused
    else if r.verdict == OutcomeUnknown && row.disposition != Completed then Unknown
    else row.disposition
  }

  /** A result is refused exactly for a field that differs from the command's, an unknown decision, an
      approval without its time, or an attempt to undo a completion. */
  lemma RefusalsAreExact(row: Row, r: CommandResult)
    requires row.command.Some? && row.command.value.id == r.id
    ensures SettleRow(row, r).Failure? <==>
              || !Answers(r, row.command.value) || r.verdict == Unrecognised
              || (r.verdict == Approve && r.writtenAt == None)
              || (row.disposition == Completed && (r.verdict == Reject || r.verdict == OutcomeUnknown))
  {
  }

  lemma SettledByDecision(inbox: Inbox, id: InspectionId, r: CommandResult)
    requires id in inbox
    ensures Settle(inbox, r)[id] == if inbox[id].command.Some? && Answers(r, inbox[id].command.value)
                                    then inbox[id].(disposition := Outcome(inbox[id], r)) else inbox[id]
  {
  }

  /** In every run a result changes at most the disposition of the one row whose command it answers in
      every field, and changes it as its decision says. */
  lemma ResultsSettleByDecision(cfg: Settings, events: seq<Event>, r: CommandResult, now: Time, id: InspectionId,
                                s: Consumer, n: Consumer)
    requires AgeLimit(cfg.maxAge) && s == Run(cfg, events) && Enabled(s, Result(r, now)) && n == Step(cfg, s, Result(r, now))
    requires id in s.inbox
    ensures n.inbox.Keys == s.inbox.Keys
    ensures n.inbox[id] == if s.inbox[id].command.Some? && Answers(r, s.inbox[id].command.value)
                           then s.inbox[id].(disposition := Outcome(s.inbox[id], r)) else s.inbox[id]
    ensures forall k | k in s.inbox && k != id && s.inbox[k].command.Some? && s.inbox[id].command.Some?
                       && Answers(r, s.inbox[id].command.value) :: !Answers(r, s.inbox[k].command.value)
  {
    RunKeepsInv(cfg, events);
    SettledByDecision(s.inbox, id, r);
  }
}
