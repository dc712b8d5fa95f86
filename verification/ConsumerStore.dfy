/** The consumer's durable inbox and command outbox. Digests are symbolic, so rows compare
    whole inspections. */
module ConsumerStore {
  import opened Common
  import opened Authorization
  import opened InspectionCodec

  datatype Disposition = Future | Expired | Passed | BottleDuplicate | Waiting | Completed | Refused | Unknown

  datatype Row = Row(
    event: Inspection,
    received: Time,
    disposition: Disposition,
    command: Option<Command>,
    baseline: Option<int>,
    lastSent: Time)

  type Inbox = map<InspectionId, Row>

  const OUTBOX_CAPACITY: nat := 128

  const BOTTLE_MARGIN: Time := 10 * SECOND

  /** The configured range of the inspection age limit. */
  predicate AgeLimit(maxAge: Time) {
    0 < maxAge <= 5 * SECOND
  }

  predicate SameBottle(a: Inspection, b: Inspection) {
    a.id.session == b.id.session && a.bottle == b.bottle
  }

  predicate BottleSeen(inbox: Inbox, event: Inspection, since: Time) {
    exists id | id in inbox :: inbox[id].received >= since && SameBottle(inbox[id].event, event)
  }

  function Disposed(inbox: Inbox, event: Inspection, now: Time, maxAge: Time): Disposition {
    var age := now - event.at;
    if age < 0 then Future
    else if age >= maxAge then Expired
    else if event.passed then Passed
    else if BottleSeen(inbox, event, now - maxAge - BOTTLE_MARGIN) then BottleDuplicate
    else Waiting
  }

  function WaitingIds(inbox: Inbox): set<InspectionId> {
    set id | id in inbox && inbox[id].disposition == Waiting
  }

  predicate CommandIdUsed(inbox: Inbox, id: string) {
    exists k | k in inbox :: inbox[k].command.Some? && inbox[k].command.value.id == id
  }

  function Swept(inbox: Inbox, now: Time): Inbox {
    map id | id in inbox && !(inbox[id].disposition != Waiting && inbox[id].received < now - DAY) :: inbox[id]
  }

  function NewRow(inbox: Inbox, event: Inspection, now: Time, maxAge: Time, command: Command, baseline: Option<int>): Row {
    var disposition := Disposed(inbox, event, now, maxAge);
    Row(event, now, disposition, if disposition == Waiting then Some(command) else None, baseline, 0)
  }

  /** Owning an inspection: `command` is what the factory builds if one is needed. */
  function Receive(inbox: Inbox, event: Inspection, now: Time, maxAge: Time, command: Command,
                   baseline: Option<int>): Result<Inbox>
  {
    if event.id in inbox then
      if inbox[event.id].event != event then Failure("inspection identity conflict") else Success(inbox)
    else
      var row := NewRow(inbox, event, now, maxAge, command, baseline);
      if row.disposition == Waiting && |WaitingIds(inbox)| >= OUTBOX_CAPACITY
      then Failure("consumer command outbox capacity reached")
      else if row.disposition == Waiting && CommandIdUsed(inbox, command.id)
      then Failure("command identity already used")
      else Success(Swept(inbox[event.id := row], now))
  }

  /** Commands still unsettled after a day are given up as unknown. */
  function GivenUp(inbox: Inbox, now: Time): Inbox {
    map id | id in inbox ::
      if inbox[id].disposition == Waiting && inbox[id].received < now - DAY
      then inbox[id].(disposition := Unknown) else inbox[id]
  }

  function ReadyIds(inbox: Inbox, now: Time): set<InspectionId> {
    set id | id in inbox && inbox[id].disposition == Waiting && inbox[id].lastSent < now - SECOND
  }

  function Sent(inbox: Inbox, id: InspectionId, now: Time): Inbox {
    if id in inbox then inbox[id := inbox[id].(lastSent := now)] else inbox
  }

  datatype Verdict = Approve | Reject | StillPending | OutcomeUnknown | Unrecognised

  datatype CommandResult = CommandResult(
    id: string, requester: string, target: string, value: int, valueType: string,
    verdict: Verdict, writtenAt: Option<Time>)

  predicate Matches(r: CommandResult, c: Command) {
    r.requester == c.requester && r.target == c.target && r.value == c.value && r.valueType == c.valueType
  }

  predicate Concerns(row: Row, r: CommandResult) {
    row.command.Some? && row.command.value.id == r.id
  }

  function Settlement(verdict: Verdict): Disposition
    requires verdict.Approve? || verdict.Reject? || verdict.OutcomeUnknown?
  {
    match verdict
    case Approve => Completed
    case Reject => Refused
    case OutcomeUnknown => Unknown
  }

  function SettleRow(row: Row, r: CommandResult): Result<Row>
    requires Concerns(row, r)
  {
    if !Matches(r, row.command.value) then Failure("result binding mismatch")
    else if r.verdict == Unrecognised then Failure("unknown result type")
    else if r.verdict == StillPending then Success(row)
    else if r.verdict == Approve && r.writtenAt.None? then Failure("completion acknowledgement missing")
    else if row.disposition == Completed && r.verdict != Approve then Failure("completed outcome cannot be overwritten")
    else Success(row.(disposition := Settlement(r.verdict)))
  }

  /** A result that cannot be applied changes nothing. */
  function Settle(inbox: Inbox, r: CommandResult): Inbox {
    map id | id in inbox ::
      if Concerns(inbox[id], r) && SettleRow(inbox[id], r).Success? then SettleRow(inbox[id], r).value else inbox[id]
  }

  // ----- what every operation keeps -----

  /** The dispositions that only an inspection with a command can have. */
  predicate Commanding(d: Disposition) {
    d == Waiting || d == Completed || d == Refused || d == Unknown
  }

  /** Rows are filed under their inspection, commands under one row each. */
  ghost predicate Filed(inbox: Inbox) {
    && (forall id | id in inbox ::
          inbox[id].event.id == id && (inbox[id].command.Some? <==> Commanding(inbox[id].disposition)))
    && (forall a, b | a in inbox && b in inbox && inbox[a].command.Some? && inbox[b].command.Some?
                      && inbox[a].command.value.id == inbox[b].command.value.id :: a == b)
    && |WaitingIds(inbox)| <= OUTBOX_CAPACITY
  }

  predicate RowAdvances(before: Row, after: Row) {
    && after.event == before.event && after.command == before.command && after.received == before.received
    && (after.disposition == Waiting ==> before.disposition == Waiting)
    && (before.disposition == Completed ==> after.disposition == Completed)
    && (Commanding(before.disposition) <==> Commanding(after.disposition))
    && (!Commanding(before.disposition) ==> after.disposition == before.disposition)
  }

  /** Ownership moves one way: an owned inspection keeps its command, never waits again,
      never leaves completion, and is forgotten only when settled and a day old. */
  ghost predicate Advances(before: Inbox, after: Inbox, now: Time) {
    forall id | id in before ::
      && (id in after ==> RowAdvances(before[id], after[id]))
      && (id !in after ==> before[id].disposition != Waiting && before[id].received < now - DAY)
  }

  lemma InsertingKeeps(inbox: Inbox, row: Row)
    requires Filed(inbox) && row.event.id !in inbox
    requires row.command.Some? ==> !CommandIdUsed(inbox, row.command.value.id)
    requires row.command.Some? <==> Commanding(row.disposition)
    requires row.disposition == Waiting ==> |WaitingIds(inbox)| < OUTBOX_CAPACITY
    ensures Filed(inbox[row.event.id := row])
  {
    var after := inbox[row.event.id := row];
    assert WaitingIds(after) == if row.disposition == Waiting then WaitingIds(inbox) + {row.event.id} else WaitingIds(inbox);
  }

  lemma SweepingKeeps(inbox: Inbox, now: Time)
    requires Filed(inbox)
    ensures Filed(Swept(inbox, now)) && Advances(inbox, Swept(inbox, now), now)
  {
    assert WaitingIds(Swept(inbox, now)) == WaitingIds(inbox);
  }

  lemma ReceiveKeeps(inbox: Inbox, event: Inspection, now: Time, maxAge: Time, command: Command, baseline: Option<int>)
    requires Filed(inbox) && Receive(inbox, event, now, maxAge, command, baseline).Success?
    ensures var after := Receive(inbox, event, now, maxAge, command, baseline).value;
            && Filed(after) && Advances(inbox, after, now)
            && event.id in after && after[event.id].event == event
            && forall id | id in after && id != event.id :: id in inbox
  {
    if event.id !in inbox {
      var row := NewRow(inbox, event, now, maxAge, command, baseline);
      InsertingKeeps(inbox, row);
      SweepingKeeps(inbox[event.id := row], now);
    }
  }

  lemma GivingUpKeeps(inbox: Inbox, now: Time)
    requires Filed(inbox)
    ensures Filed(GivenUp(inbox, now)) && Advances(inbox, GivenUp(inbox, now), now)
    ensures forall id | id in ReadyIds(GivenUp(inbox, now), now) ::
      id in inbox && inbox[id].command.Some? && inbox[id].received >= now - DAY
  {
    Shrinks(WaitingIds(GivenUp(inbox, now)), WaitingIds(inbox));
  }

  lemma SendingKeeps(inbox: Inbox, id: InspectionId, now: Time)
    requires Filed(inbox)
    ensures Filed(Sent(inbox, id, now)) && Advances(inbox, Sent(inbox, id, now), now)
  {
    assert WaitingIds(Sent(inbox, id, now)) == WaitingIds(inbox);
  }

  lemma SettlingAdvances(row: Row, r: CommandResult)
    requires Concerns(row, r) && SettleRow(row, r).Success? && Commanding(row.disposition)
    ensures var after := SettleRow(row, r).value;
            && RowAdvances(row, after)
            && (after.disposition == Completed && row.disposition != Completed ==> r.verdict == Approve && r.writtenAt.Some?)
  {
  }

  lemma SettlingKeeps(inbox: Inbox, r: CommandResult, now: Time)
    requires Filed(inbox)
    ensures Filed(Settle(inbox, r)) && Advances(inbox, Settle(inbox, r), now)
    ensures forall id | id in inbox && inbox[id].disposition != Completed && Settle(inbox, r)[id].disposition == Completed ::
      Concerns(inbox[id], r) && r.verdict == Approve && r.writtenAt.Some?
  {
    var after := Settle(inbox, r);
    forall id | id in inbox
      ensures RowAdvances(inbox[id], after[id])
      ensures inbox[id].disposition != Completed && after[id].disposition == Completed ==>
        Concerns(inbox[id], r) && r.verdict == Approve && r.writtenAt.Some?
    {
      if Concerns(inbox[id], r) && SettleRow(inbox[id], r).Success? { SettlingAdvances(inbox[id], r); }
    }
    Shrinks(WaitingIds(after), WaitingIds(inbox));
  }

  /** A result concerns at most one row, and settling is what happens to that row. */
  lemma SettlesOneRow(inbox: Inbox, r: CommandResult)
    requires Filed(inbox)
    ensures (forall id | id in inbox :: !Concerns(inbox[id], r)) ==> Settle(inbox, r) == inbox
    ensures forall id | id in inbox && Concerns(inbox[id], r) ::
      && (forall k | k in inbox && Concerns(inbox[k], r) :: k == id)
      && Settle(inbox, r) == if SettleRow(inbox[id], r).Success? then inbox[id := SettleRow(inbox[id], r).value] else inbox
  {
  }

  class ConsumerStore {
    var inbox: Inbox

    ghost predicate Valid()
      reads this
    {
      Filed(inbox)
    }

    constructor ()
      ensures Valid() && inbox == map[]
    {
      inbox := map[];
      new;
      assert WaitingIds(inbox) == {};
    }

    method ReceiveEvent(event: Inspection, now: Time, maxAge: Time, command: Command, baseline: Option<int>)
      returns (r: Result<Row>)
      requires Valid()
      modifies this
      ensures Valid()
      ensures var after := Receive(old(inbox), event, now, maxAge, command, baseline);
              && (r.Success? <==> after.Success?)
              && inbox == (if after.Success? then after.value else old(inbox))
              && (r.Success? ==> event.id in inbox && r.value == inbox[event.id])
    {
      ghost var was := inbox;
      if event.id in inbox {
        if inbox[event.id].event != event {
          return Failure("inspection identity conflict");
        }
        return Success(inbox[event.id]);
      }
      var age := now - event.at;
      var disposition := if age < 0 then Future else if age >= maxAge then Expired
                         else if event.passed then Passed else Waiting;
      if disposition == Waiting {
        var cutoff := now - maxAge - BOTTLE_MARGIN;
        if exists id | id in inbox :: inbox[id].received >= cutoff && SameBottle(inbox[id].event, event) {
          disposition := BottleDuplicate;
        }
      }
      var owned: Option<Command> := None;
      if disposition == Waiting {
        if |set id | id in inbox && inbox[id].disposition == Waiting| >= OUTBOX_CAPACITY {
          return Failure("consumer command outbox capacity reached");
        }
        if CommandIdUsed(inbox, command.id) {
          return Failure("command identity already used");
        }
        owned := Some(command);
      }
      var row := Row(event, now, disposition, owned, baseline, 0);
      inbox := inbox[event.id := row];
      inbox := Swept(inbox, now);
      ReceiveKeeps(was, event, now, maxAge, command, baseline);
      r := Success(row);
    }

    method Ready(now: Time) returns (due: set<InspectionId>)
      requires Valid()
      modifies this
      ensures Valid() && inbox == GivenUp(old(inbox), now)
      ensures due == ReadyIds(inbox, now) && |due| <= OUTBOX_CAPACITY
      ensures forall id :: id in due <==>
        && id in old(inbox) && old(inbox)[id].disposition == Waiting
        && old(inbox)[id].received >= now - DAY && old(inbox)[id].lastSent + SECOND < now
    {
      GivingUpKeeps(inbox, now);
      inbox := map id | id in inbox ::
        if inbox[id].disposition == Waiting && inbox[id].received < now - DAY
        then inbox[id].(disposition := Unknown) else inbox[id];
      due := set id | id in inbox && inbox[id].disposition == Waiting && inbox[id].lastSent < now - SECOND;
      Shrinks(due, WaitingIds(inbox));
    }

    method MarkSent(id: InspectionId, now: Time)
      requires Valid()
      modifies this
      ensures Valid() && inbox == Sent(old(inbox), id, now)
    {
      SendingKeeps(inbox, id, now);
      if id in inbox {
        inbox := inbox[id := inbox[id].(lastSent := now)];
      }
    }

    method SettleResult(r: CommandResult, ghost now: Time) returns (outcome: Result<()>)
      requires Valid()
      modifies this
      ensures Valid() && inbox == Settle(old(inbox), r)
      ensures outcome.Failure? ==> inbox == old(inbox)
      ensures outcome.Failure? <==> exists id | id in old(inbox) ::
        Concerns(old(inbox)[id], r) && SettleRow(old(inbox)[id], r).Failure?
    {
      SettlingKeeps(inbox, r, now);
      SettlesOneRow(inbox, r);
      if !exists id | id in inbox :: Concerns(inbox[id], r) {
        return Success(());
      }
      var id :| id in inbox && Concerns(inbox[id], r);
      var command := inbox[id].command.value;
      if !Matches(r, command) {
        return Failure("result binding mismatch");
      }
      if r.verdict == Unrecognised {
        return Failure("unknown result type");
      }
      if r.verdict == StillPending {
        return Success(());
      }
      if r.verdict == Approve && r.writtenAt == None {
        return Failure("completion acknowledgement missing");
      }
      var disposition := Settlement(r.verdict);
      if inbox[id].disposition == Completed && disposition != Completed {
        return Failure("completed outcome cannot be overwritten");
      }
      inbox := inbox[id := inbox[id].(disposition := disposition)];
      outcome := Success(());
    }
  }
}
