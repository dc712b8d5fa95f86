/** The consumer over whole runs: duplicate, late and conflicting deliveries, restarts that
    lose nothing durable, resends, settlements and the daily sweep. */
module InspectionOwnership {
  import opened Common
  import opened Authorization
  import opened InspectionCodec
  import opened ConsumerStore

  datatype Settings = Settings(maxAge: Time, target: string)

  /** A command created for an inspection, with the instant the inspection was owned. */
  datatype Issue = Issue(event: Inspection, command: Command, at: Time)

  datatype Consumer = Consumer(clock: Time, inbox: Inbox, issued: seq<Issue>, owned: set<Inspection>)

  datatype Event =
    | Deliver(event: Inspection, ulid: string, baseline: Option<int>, now: Time)
    | Resend(now: Time)
    | MarkSent(id: InspectionId, now: Time)
    | Result(result: CommandResult, now: Time)

  const FRESH := Consumer(0, map[], [], {})

  function Build(cfg: Settings, event: Inspection, ulid: string, now: Time): Command {
    Command(ulid, "decision-agent-stub", cfg.target, "int64", event.bottle, now, event.at + cfg.maxAge)
  }

  /** The clock does not run back and a generated command identity is new. */
  predicate Enabled(s: Consumer, e: Event) {
    && s.clock <= e.now
    && (e.Deliver? ==> forall x | x in s.issued :: x.command.id != e.ulid)
  }

  function DoDeliver(cfg: Settings, s: Consumer, e: Event): Consumer
    requires e.Deliver?
  {
    var command := Build(cfg, e.event, e.ulid, e.now);
    var after := Receive(s.inbox, e.event, e.now, cfg.maxAge, command, e.baseline);
    if after.Failure? then s.(clock := e.now)
    else
      var created := e.event.id !in s.inbox && Disposed(s.inbox, e.event, e.now, cfg.maxAge) == Waiting;
      Consumer(e.now, after.value,
               if created then s.issued + [Issue(e.event, command, e.now)] else s.issued,
               s.owned + {e.event})
  }

  function Step(cfg: Settings, s: Consumer, e: Event): Consumer {
    if !Enabled(s, e) then s
    else match e
         case Deliver(_, _, _, _) => DoDeliver(cfg, s, e)
         case Resend(now) => s.(clock := now, inbox := GivenUp(s.inbox, now))
         case MarkSent(id, now) => s.(clock := now, inbox := Sent(s.inbox, id, now))
         case Result(r, now) => s.(clock := now, inbox := Settle(s.inbox, r))
  }

  predicate Remembers(inbox: Inbox, x: Issue) {
    && x.event.id in inbox
    && inbox[x.event.id].event == x.event && inbox[x.event.id].command == Some(x.command)
    && inbox[x.event.id].received == x.at
  }

  predicate Timely(cfg: Settings, x: Issue) {
    x.event.at <= x.at < x.event.at + cfg.maxAge
  }

  ghost predicate RowsKnown(s: Consumer) {
    forall id | id in s.inbox ::
      && s.inbox[id].received <= s.clock && s.inbox[id].event in s.owned
      && (s.inbox[id].disposition == Future <==> s.inbox[id].event.at > s.inbox[id].received)
      && (s.inbox[id].command.Some? ==>
            Issue(s.inbox[id].event, s.inbox[id].command.value, s.inbox[id].received) in s.issued)
  }

  ghost predicate IssuesKept(cfg: Settings, s: Consumer) {
    forall x | x in s.issued ::
      && Timely(cfg, x) && x.at <= s.clock && x.event in s.owned && !x.event.passed
      && x.command == Build(cfg, x.event, x.command.id, x.at)
      && (Remembers(s.inbox, x) || s.clock > x.at + DAY)
  }

  predicate Apart(cfg: Settings, x: Issue, y: Issue) {
    && x.event != y.event && x.command.id != y.command.id
    && (SameBottle(x.event, y.event) ==> x.at + cfg.maxAge + BOTTLE_MARGIN < y.at)
  }

  ghost predicate IssuedApart(cfg: Settings, s: Consumer) {
    forall i, j | 0 <= i < j < |s.issued| :: Apart(cfg, s.issued[i], s.issued[j])
  }

  ghost predicate Inv(cfg: Settings, s: Consumer) {
    AgeLimit(cfg.maxAge) && Filed(s.inbox) && RowsKnown(s) && IssuesKept(cfg, s) && IssuedApart(cfg, s)
  }

  /** Any operation that only advances rows keeps what is known about issued commands. */
  lemma AdvancingKeepsInv(cfg: Settings, s: Consumer, n: Consumer)
    requires Inv(cfg, s) && Filed(n.inbox) && Advances(s.inbox, n.inbox, n.clock) && s.clock <= n.clock
    requires n.issued == s.issued && s.owned <= n.owned
    requires forall id | id in n.inbox && id !in s.inbox ::
      n.inbox[id].received <= n.clock && n.inbox[id].event in n.owned && n.inbox[id].command.None?
      && (n.inbox[id].disposition == Future <==> n.inbox[id].event.at > n.inbox[id].received)
    ensures Inv(cfg, n)
  {
  }

  lemma IssueIsApart(cfg: Settings, s: Consumer, added: Issue)
    requires IssuesKept(cfg, s) && IssuedApart(cfg, s) && s.clock <= added.at && AgeLimit(cfg.maxAge)
    requires forall x | x in s.issued :: x.command.id != added.command.id
    requires added.event.id !in s.inbox && Timely(cfg, added)
    requires !BottleSeen(s.inbox, added.event, added.at - cfg.maxAge - BOTTLE_MARGIN)
    ensures IssuedApart(cfg, s.(issued := s.issued + [added]))
  {
    forall x | x in s.issued ensures Apart(cfg, x, added) {
      assert Remembers(s.inbox, x) || s.clock > x.at + DAY;
    }
  }

  lemma IssueIsKnown(s: Consumer, n: Consumer, added: Issue)
    requires RowsKnown(s) && Advances(s.inbox, n.inbox, n.clock) && s.clock <= n.clock == added.at
    requires forall id | id in n.inbox && id != added.event.id :: id in s.inbox
    requires Remembers(n.inbox, added) && n.inbox[added.event.id].disposition == Waiting && added.event.at <= added.at
    requires added.event.id !in s.inbox
    requires n.issued == s.issued + [added] && n.owned == s.owned + {added.event}
    ensures RowsKnown(n)
  {
  }

  lemma IssueIsKept(cfg: Settings, s: Consumer, n: Consumer, added: Issue)
    requires IssuesKept(cfg, s) && Advances(s.inbox, n.inbox, n.clock) && s.clock <= n.clock == added.at
    requires Remembers(n.inbox, added) && Timely(cfg, added) && !added.event.passed
    requires added.command == Build(cfg, added.event, added.command.id, added.at)
    requires n.issued == s.issued + [added] && n.owned == s.owned + {added.event}
    ensures IssuesKept(cfg, n)
  {
  }

  lemma IssuingKeepsInv(cfg: Settings, s: Consumer, e: Event)
    requires Inv(cfg, s) && e.Deliver? && Enabled(s, e) && e.event.id !in s.inbox
    requires Disposed(s.inbox, e.event, e.now, cfg.maxAge) == Waiting
    requires Receive(s.inbox, e.event, e.now, cfg.maxAge, Build(cfg, e.event, e.ulid, e.now), e.baseline).Success?
    ensures Inv(cfg, DoDeliver(cfg, s, e))
  {
    var n := DoDeliver(cfg, s, e);
    var added := Issue(e.event, Build(cfg, e.event, e.ulid, e.now), e.now);
    ReceiveKeeps(s.inbox, e.event, e.now, cfg.maxAge, added.command, e.baseline);
    IssueIsApart(cfg, s, added);
    IssueIsKnown(s, n, added);
    IssueIsKept(cfg, s, n, added);
  }

  lemma DeliverKeepsInv(cfg: Settings, s: Consumer, e: Event)
    requires Inv(cfg, s) && e.Deliver? && Enabled(s, e)
    ensures Inv(cfg, DoDeliver(cfg, s, e))
  {
    var command := Build(cfg, e.event, e.ulid, e.now);
    var after := Receive(s.inbox, e.event, e.now, cfg.maxAge, command, e.baseline);
    if after.Success? {
      ReceiveKeeps(s.inbox, e.event, e.now, cfg.maxAge, command, e.baseline);
      if e.event.id !in s.inbox && Disposed(s.inbox, e.event, e.now, cfg.maxAge) == Waiting {
        IssuingKeepsInv(cfg, s, e);
      } else {
        AdvancingKeepsInv(cfg, s, DoDeliver(cfg, s, e));
      }
    }
  }

  lemma StepKeepsInv(cfg: Settings, s: Consumer, e: Event)
    requires Inv(cfg, s)
    ensures Inv(cfg, Step(cfg, s, e))
  {
    if Enabled(s, e) {
      match e
      case Deliver(_, _, _, _) => DeliverKeepsInv(cfg, s, e);
      case Resend(now) =>
        GivingUpKeeps(s.inbox, now);
        AdvancingKeepsInv(cfg, s, Step(cfg, s, e));
      case MarkSent(id, now) =>
        SendingKeeps(s.inbox, id, now);
        AdvancingKeepsInv(cfg, s, Step(cfg, s, e));
      case Result(r, now) =>
        SettlingKeeps(s.inbox, r, now);
        AdvancingKeepsInv(cfg, s, Step(cfg, s, e));
    }
  }

  function Run(cfg: Settings, events: seq<Event>): Consumer {
    if events == [] then FRESH
    else Step(cfg, Run(cfg, events[..|events| - 1]), events[|events| - 1])
  }

  lemma {:induction false} RunKeepsInv(cfg: Settings, events: seq<Event>)
    requires AgeLimit(cfg.maxAge)
    ensures Inv(cfg, Run(cfg, events))
  {
    if events == [] {
      assert WaitingIds(FRESH.inbox) == {};
    } else {
      RunKeepsInv(cfg, events[..|events| - 1]);
      StepKeepsInv(cfg, Run(cfg, events[..|events| - 1]), events[|events| - 1]);
    }
  }

  lemma RunExtends(cfg: Settings, events: seq<Event>, e: Event)
    ensures Run(cfg, events + [e]) == Step(cfg, Run(cfg, events), e)
  {
    DropLast(events, e);
  }

  /** However often an inspection is redelivered, and however much of the inbox has been swept
      meanwhile, it gets at most one command; and one bottle of a session gets its commands more
      than the age limit and ten seconds apart. */
  lemma OneCommandPerInspection(cfg: Settings, events: seq<Event>)
    requires AgeLimit(cfg.maxAge)
    ensures var issued := Run(cfg, events).issued;
            && (forall i, j | 0 <= i < |issued| && 0 <= j < |issued| && issued[i].event == issued[j].event :: i == j)
            && (forall i, j | 0 <= i < |issued| && 0 <= j < |issued| && issued[i].command.id == issued[j].command.id :: i == j)
            && forall i, j | 0 <= i < j < |issued| && SameBottle(issued[i].event, issued[j].event) ::
                 issued[i].at + cfg.maxAge + BOTTLE_MARGIN < issued[j].at
  {
    var issued := Run(cfg, events).issued;
    RunKeepsInv(cfg, events);
    forall i, j | 0 <= i < j < |issued| ensures Apart(cfg, issued[i], issued[j]) {}
  }

  /** Whatever is resent is the one command created for that failed inspection, asking for
      its bottle by its own deadline. */
  lemma ResendsTheSameCommand(cfg: Settings, events: seq<Event>, id: InspectionId, now: Time)
    requires AgeLimit(cfg.maxAge)
    requires id in ReadyIds(GivenUp(Run(cfg, events).inbox, now), now)
    ensures var row := GivenUp(Run(cfg, events).inbox, now)[id];
            && row.command.Some?
            && Issue(row.event, row.command.value, row.received) in Run(cfg, events).issued
            && !row.event.passed && row.command.value.value == row.event.bottle
            && row.command.value.deadline == row.event.at + cfg.maxAge
  {
    RunKeepsInv(cfg, events);
    GivingUpKeeps(Run(cfg, events).inbox, now);
  }

  /** An owned inspection is still filed, one step on, or was owned more than a day ago. */
  ghost predicate Persists(s: Consumer, n: Consumer) {
    && s.clock <= n.clock
    && forall id | id in s.inbox ::
         (id in n.inbox && RowAdvances(s.inbox[id], n.inbox[id])) || n.clock > s.inbox[id].received + DAY
  }

  lemma StepPersists(cfg: Settings, s: Consumer, e: Event)
    requires Inv(cfg, s)
    ensures Persists(s, Step(cfg, s, e))
  {
    if Enabled(s, e) {
      match e
      case Deliver(event, ulid, baseline, now) =>
        var command := Build(cfg, event, ulid, now);
        if Receive(s.inbox, event, now, cfg.maxAge, command, baseline).Success? {
          ReceiveKeeps(s.inbox, event, now, cfg.maxAge, command, baseline);
        }
      case Resend(now) => GivingUpKeeps(s.inbox, now);
      case MarkSent(id, now) => SendingKeeps(s.inbox, id, now);
      case Result(r, now) => SettlingKeeps(s.inbox, r, now);
    }
  }

  lemma PersistsTransitively(a: Consumer, b: Consumer, c: Consumer)
    requires Persists(a, b) && Persists(b, c)
    ensures Persists(a, c)
  {
  }

  lemma NextPersists(cfg: Settings, first: Consumer, s: Consumer, e: Event)
    requires Inv(cfg, s) && Persists(first, s)
    ensures Persists(first, Step(cfg, s, e))
  {
    StepPersists(cfg, s, e);
    PersistsTransitively(first, s, Step(cfg, s, e));
  }

  lemma RunSplits(cfg: Settings, events: seq<Event>, more: seq<Event>)
    requires more != []
    ensures Run(cfg, events + more) == Step(cfg, Run(cfg, events + more[..|more| - 1]), more[|more| - 1])
  {
    SplitLast(events, more);
    RunExtends(cfg, events + more[..|more| - 1], more[|more| - 1]);
  }

  lemma {:induction false} RunPersists(cfg: Settings, events: seq<Event>, more: seq<Event>)
    requires AgeLimit(cfg.maxAge)
    ensures Persists(Run(cfg, events), Run(cfg, events + more))
  {
    if more == [] {
      assert events + more == events;
    } else {
      RunPersists(cfg, events, more[..|more| - 1]);
      RunKeepsInv(cfg, events + more[..|more| - 1]);
      NextPersists(cfg, Run(cfg, events), Run(cfg, events + more[..|more| - 1]), more[|more| - 1]);
      RunSplits(cfg, events, more);
    }
  }

  /** The instant from which the sweep may forget an inspection owned at `received`. */
  function Forgettable(received: Time): Time {
    received + DAY + 1
  }

  /** Once the sweep has forgotten an inspection, no redelivery of it finds anything but expiry. */
  ghost predicate StaysOut(cfg: Settings, events: seq<Event>, event: Inspection) {
    forall more, now: Time |
      event.id !in Run(cfg, events + more).inbox && Run(cfg, events + more).clock <= now ::
      Disposed(Run(cfg, events + more).inbox, event, now, cfg.maxAge) == Expired
  }

  lemma SweptIsLate(cfg: Settings, events: seq<Event>, more: seq<Event>, id: InspectionId)
    requires AgeLimit(cfg.maxAge)
    requires id in Run(cfg, events).inbox && id !in Run(cfg, events + more).inbox
    ensures Run(cfg, events + more).clock >= Max(Forgettable(Run(cfg, events).inbox[id].received), Run(cfg, events).clock)
  {
    RunKeepsInv(cfg, events);
    RunPersists(cfg, events, more);
  }

  lemma {:induction false} AnotherId(ids: set<InspectionId>) returns (n: nat)
    ensures forall id | id in ids :: id.sequence < n
  {
    n := 0;
    if ids != {} {
      var id :| id in ids;
      var m := AnotherId(ids - {id});
      n := if id.sequence < m then m else id.sequence + 1;
      forall x | x in ids ensures x.sequence < n {
        if x != id { assert x in ids - {id}; }
      }
    }
  }

  lemma {:induction false} AnotherText(issued: seq<Issue>) returns (text: string)
    ensures forall x | x in issued :: |x.command.id| < |text|
  {
    text := "?";
    if issued != [] {
      var last := issued[|issued| - 1].command.id;
      var shorter := AnotherText(issued[..|issued| - 1]);
      text := shorter + last + "?";
      forall x | x in issued ensures |x.command.id| < |text| {
        if x !in issued[..|issued| - 1] { assert x == issued[|issued| - 1]; }
      }
    }
  }

  /** A passed inspection delivered late enough sweeps a settled row, whatever else is filed. */
  lemma DeliverySweeps(cfg: Settings, s: Consumer, id: InspectionId, now: Time) returns (e: Event)
    requires AgeLimit(cfg.maxAge) && id in s.inbox && s.inbox[id].disposition != Waiting
    requires now >= Max(Forgettable(s.inbox[id].received), s.clock)
    ensures id !in Step(cfg, s, e).inbox && Step(cfg, s, e).clock == now
  {
    var fresher := AnotherId(s.inbox.Keys);
    var ulid := AnotherText(s.issued);
    var other := Inspection(InspectionId(1, fresher), 1, true, now);
    e := Deliver(other, ulid, None, now);
    assert other.id !in s.inbox && other.id != id;
    assert Disposed(s.inbox, other, now, cfg.maxAge) == Passed;
  }

  /** Redelivery after the sweep is always expired if and only if the inspection lay no further
      ahead, when it was owned, than a day less the age limit, or its time has come since. */
  lemma RedeliveryAfterSweepExpires(cfg: Settings, events: seq<Event>, id: InspectionId)
    requires AgeLimit(cfg.maxAge) && id in Run(cfg, events).inbox
    ensures var s := Run(cfg, events);
            var row := s.inbox[id];
            StaysOut(cfg, events, row.event) <==>
              row.event.at + cfg.maxAge <= Max(Forgettable(row.received), s.clock)
  {
    var s := Run(cfg, events);
    var row := s.inbox[id];
    RunKeepsInv(cfg, events);
    var soonest := Max(Forgettable(row.received), s.clock);
    if row.event.at + cfg.maxAge <= soonest {
      forall more, now: Time | row.event.id !in Run(cfg, events + more).inbox && Run(cfg, events + more).clock <= now
        ensures Disposed(Run(cfg, events + more).inbox, row.event, now, cfg.maxAge) == Expired
      {
        SweptIsLate(cfg, events, more, id);
      }
    } else {
      var e := DeliverySweeps(cfg, s, id, soonest);
      RunExtends(cfg, events, e);
      assert Disposed(Run(cfg, events + [e]).inbox, row.event, soonest, cfg.maxAge) != Expired;
    }
  }

  /** So one that was not ahead of the clock, or at most a day less five seconds, never comes back. */
  lemma NearInspectionsStayOut(cfg: Settings, events: seq<Event>, more: seq<Event>, id: InspectionId, now: Time)
    requires AgeLimit(cfg.maxAge) && id in Run(cfg, events).inbox
    requires Run(cfg, events).inbox[id].event.at <= Run(cfg, events).inbox[id].received + DAY - 5 * SECOND
    requires id !in Run(cfg, events + more).inbox && Run(cfg, events + more).clock <= now
    ensures Disposed(Run(cfg, events + more).inbox, Run(cfg, events).inbox[id].event, now, cfg.maxAge) == Expired
  {
    SweptIsLate(cfg, events, more, id);
  }

  /** A witness of the other side: an inspection two days ahead of the clock is filed as future,
      swept, and on its day becomes a command. */
  lemma FutureInspectionsComeBack()
    ensures var cfg := Settings(2 * SECOND, "reject");
            var first := Deliver(AHEAD, "a", None, SECOND);
            var sweep := Deliver(OTHER, "b", None, 2 * DAY);
            var again := Deliver(AHEAD, "c", None, 2 * DAY);
            && AHEAD.id in Run(cfg, [first]).inbox && Run(cfg, [first]).inbox[AHEAD.id].disposition == Future
            && AHEAD.id !in Run(cfg, [first, sweep]).inbox
            && |Run(cfg, [first, sweep, again]).issued| == 1
  {
    var cfg := Settings(2 * SECOND, "reject");
    var first := Deliver(AHEAD, "a", None, SECOND);
    var sweep := Deliver(OTHER, "b", None, 2 * DAY);
    var again := Deliver(AHEAD, "c", None, 2 * DAY);
    assert [] + [first] == [first] && [first] + [sweep] == [first, sweep] && [first, sweep] + [again] == [first, sweep, again];
    RunExtends(cfg, [], first);
    RunExtends(cfg, [first], sweep);
    RunExtends(cfg, [first, sweep], again);
    FiledAsFuture(cfg);
    SweptNextDay(cfg);
    DueAtLast(cfg, Run(cfg, [first, sweep]));
  }

  const AHEAD := Inspection(InspectionId(1, 1), 7, false, 2 * DAY)
  const OTHER := Inspection(InspectionId(1, 2), 8, true, 2 * DAY)
  const AFTER_FIRST := Consumer(SECOND, map[AHEAD.id := Row(AHEAD, SECOND, Future, None, None, 0)], [], {AHEAD})

  lemma FiledAsFuture(cfg: Settings)
    requires cfg.maxAge == 2 * SECOND
    ensures Step(cfg, FRESH, Deliver(AHEAD, "a", None, SECOND)) == AFTER_FIRST
  {
  }

  lemma SweptNextDay(cfg: Settings)
    requires cfg.maxAge == 2 * SECOND
    ensures var two := Step(cfg, AFTER_FIRST, Deliver(OTHER, "b", None, 2 * DAY));
            two.inbox == map[OTHER.id := Row(OTHER, 2 * DAY, Passed, None, None, 0)] && two.issued == [] && two.clock == 2 * DAY
  {
  }

  lemma DueAtLast(cfg: Settings, two: Consumer)
    requires cfg.maxAge == 2 * SECOND && two.issued == [] && two.clock == 2 * DAY
    requires two.inbox == map[OTHER.id := Row(OTHER, 2 * DAY, Passed, None, None, 0)]
    ensures |Step(cfg, two, Deliver(AHEAD, "c", None, 2 * DAY)).issued| == 1
  {
    assert WaitingIds(two.inbox) == {};
  }
}
