/** That the hand-over gets on: one round of it takes the next inspection in line out of the outbox, and
    from every reachable state the whole outbox can be emptied. */
module DeliveryProgress {
  import opened Common
  import opened InspectionCodec
  import opened SourceJournal
  import opened InspectionDelivery
  import ConsumerStore
  import Ownership = InspectionOwnership

  // ----- the consumer only ever owned what was published -----

  ghost predicate OwnedWasPublished(w: World) {
    w.consumer.owned <= w.published
  }

  lemma ConsumerOwns(cfg: Config, s: Ownership.Consumer, e: Ownership.Event)
    ensures Ownership.Step(cfg.inbox, s, e).owned <= s.owned + (if e.Deliver? then {e.event} else {})
  {
  }

  lemma StepKeepsOwned(cfg: Config, w: World, e: Event)
    requires OwnedWasPublished(w)
    ensures OwnedWasPublished(Step(cfg, w, e))
  {
    if e.Consume? {
      ConsumerOwns(cfg, w.consumer, e.step);
    }
  }

  lemma {:induction false} RunKeepsOwned(cfg: Config, events: seq<Event>)
    ensures OwnedWasPublished(Run(cfg, events))
  {
    if events != [] {
      RunKeepsOwned(cfg, events[..|events| - 1]);
      StepKeepsOwned(cfg, Run(cfg, events[..|events| - 1]), events[|events| - 1]);
    }
  }

  /** A logged inspection never meets another one under its identity in the consumer's inbox. */
  lemma NoConflict(cfg: Config, w: World, e: Inspection)
    requires Inv(cfg, w) && OwnedWasPublished(w) && e in w.log && e.id in w.consumer.inbox
    ensures w.consumer.inbox[e.id].event == e
  {
    var filed := w.consumer.inbox[e.id].event;
    assert Ownership.RowsKnown(w.consumer) && filed in w.published && filed in w.log && filed.id == e.id;
    LogIdsDistinct(cfg, w);
    var i :| 0 <= i < |w.log| && w.log[i] == e;
    var j :| 0 <= j < |w.log| && w.log[j] == filed;
    assert i == j;
  }

  // ----- one round -----

  ghost function After(cfg: Config, w: World, events: seq<Event>): World
    decreases |events|
  {
    if events == [] then w else After(cfg, Step(cfg, w, events[0]), events[1..])
  }

  lemma RunExtends(cfg: Config, events: seq<Event>, e: Event)
    ensures Run(cfg, events + [e]) == Step(cfg, Run(cfg, events), e)
  {
    DropLast(events, e);
  }

  lemma {:induction false} AfterIsRun(cfg: Config, events: seq<Event>, more: seq<Event>)
    ensures Run(cfg, events + more) == After(cfg, Run(cfg, events), more)
    decreases |more|
  {
    if more == [] {
      assert events + more == events;
    } else {
      RunExtends(cfg, events, more[0]);
      AfterIsRun(cfg, events + [more[0]], more[1..]);
      ShiftFirst(events, more);
    }
  }

  lemma {:induction false} AfterSplits(cfg: Config, w: World, a: seq<Event>, b: seq<Event>)
    ensures After(cfg, w, a + b) == After(cfg, After(cfg, w, a), b)
    decreases |a|
  {
    if a == [] {
      assert a + b == b;
    } else {
      AfterSplits(cfg, Step(cfg, w, a[0]), a[1..], b);
      FirstOfSum(a, b);
    }
  }

  lemma TwoSteps(cfg: Config, w: World, a: Event, b: Event)
    ensures After(cfg, w, [a, b]) == Step(cfg, Step(cfg, w, a), b)
  {
    assert [a, b][1..] == [b] && [b][1..] == [];
    assert After(cfg, Step(cfg, w, a), [b]) == After(cfg, Step(cfg, Step(cfg, w, a), b), []);
  }

  lemma FourSteps(cfg: Config, w: World, a: Event, b: Event, c: Event, d: Event)
    ensures After(cfg, w, [a, b, c, d]) == Step(cfg, Step(cfg, Step(cfg, Step(cfg, w, a), b), c), d)
  {
    assert [a, b, c, d] == [a, b] + [c, d];
    AfterSplits(cfg, w, [a, b], [c, d]);
    TwoSteps(cfg, w, a, b);
    TwoSteps(cfg, After(cfg, w, [a, b]), c, d);
  }

  function Offer(e: Inspection, ulid: string, baseline: Option<int>, now: Time): seq<Event> {
    [Display, Poll, Consume(Ownership.Deliver(e, ulid, baseline, now)), EmitReceipt]
  }

  function Return(cfg: Config, e: Inspection): seq<Event> {
    [ReadHead(SignReceipt(cfg, e)), WriteMark, ProcessMark, Display]
  }

  /** The device shows the inspection, the subscriber publishes it, the consumer owns it and signs for
      it, and the subscriber writes the receipt back. */
  function Round(cfg: Config, e: Inspection, ulid: string, baseline: Option<int>, now: Time): seq<Event> {
    Offer(e, ulid, baseline, now) + Return(cfg, e)
  }

  /** The consumer can take this delivery at this instant: its clock allows it, the command identity is
      new, and its outbox has room unless no command is needed. */
  predicate CanTake(cfg: Config, s: Ownership.Consumer, e: Inspection, ulid: string, now: Time) {
    && s.clock <= now && (forall x | x in s.issued :: x.command.id != ulid)
    && (|ConsumerStore.WaitingIds(s.inbox)| < 128 || e.passed || now < e.at || now >= e.at + cfg.inbox.maxAge)
  }

  lemma TakingSucceeds(cfg: Config, w: World, e: Inspection, ulid: string, baseline: Option<int>, now: Time)
    requires Ownership.Inv(cfg.inbox, w.consumer) && CanTake(cfg, w.consumer, e, ulid, now)
    requires e.id in w.consumer.inbox ==> w.consumer.inbox[e.id].event == e
    ensures Owns(cfg, w, Ownership.Deliver(e, ulid, baseline, now))
  {
    assert !ConsumerStore.CommandIdUsed(w.consumer.inbox, ulid);
  }

  /** The inspection is shown, next in line, and fit for the wire. */
  predicate Offered(w: World, e: Inspection) {
    && w.head == Encode(Some(e)) && Carried(e) && AtMillis(e) == e
    && w.journal.received < |w.log| && w.log[w.journal.received] == e
  }

  lemma OfferedIsShown(w: World, e: Inspection)
    requires Offered(w, e)
    ensures Shown(w) == Some(e)
  {
    DecodeEncode(e);
  }

  lemma DisplayStep(cfg: Config, w: World, e: Inspection, n: World)
    requires Head(w.journal) == Some(e) && Carried(e) && AtMillis(e) == e
    requires w.journal.received < |w.log| && w.log[w.journal.received] == e && n == Step(cfg, w, Display)
    ensures Offered(n, e) && n == w.(head := Encode(Some(e)))
  {
  }

  lemma PollStep(cfg: Config, w: World, e: Inspection, n: World)
    requires Offered(w, e) && n == Step(cfg, w, Poll)
    ensures n == w.(published := w.published + {e})
  {
    OfferedIsShown(w, e);
  }

  lemma ConsumeStep(cfg: Config, w: World, d: Ownership.Event, n: World)
    requires Owns(cfg, w, d) && d.event in w.published && n == Step(cfg, w, Consume(d))
    ensures n == w.(consumer := Ownership.Step(cfg.inbox, w.consumer, d), due := Some(d.event))
  {
  }

  lemma EmitStep(cfg: Config, w: World, e: Inspection, n: World)
    requires w.due == Some(e) && n == Step(cfg, w, EmitReceipt)
    ensures n == w.(receipts := w.receipts + {SignReceipt(cfg, e)}, due := None)
  {
  }

  lemma OfferReaches(cfg: Config, w: World, e: Inspection, ulid: string, baseline: Option<int>, now: Time, n: World)
    requires Ownership.Inv(cfg.inbox, w.consumer) && CanTake(cfg, w.consumer, e, ulid, now)
    requires e.id in w.consumer.inbox ==> w.consumer.inbox[e.id].event == e
    requires Head(w.journal) == Some(e) && Carried(e) && AtMillis(e) == e
    requires w.journal.received < |w.log| && w.log[w.journal.received] == e
    requires n == After(cfg, w, Offer(e, ulid, baseline, now))
    ensures Offered(n, e) && n.journal == w.journal && n.log == w.log && SignReceipt(cfg, e) in n.receipts
    ensures n.consumer == Ownership.Step(cfg.inbox, w.consumer, Ownership.Deliver(e, ulid, baseline, now))
  {
    var d := Ownership.Deliver(e, ulid, baseline, now);
    var a := Step(cfg, w, Display);
    DisplayStep(cfg, w, e, a);
    var b := Step(cfg, a, Poll);
    PollStep(cfg, a, e, b);
    TakingSucceeds(cfg, b, e, ulid, baseline, now);
    var c := Step(cfg, b, Consume(d));
    ConsumeStep(cfg, b, d, c);
    EmitStep(cfg, c, e, Step(cfg, c, EmitReceipt));
    FourSteps(cfg, w, Display, Poll, Consume(d), EmitReceipt);
  }

  lemma ForwardStep(cfg: Config, w: World, e: Inspection, a: World, b: World)
    requires Shown(w) == Some(e) && SignReceipt(cfg, e) in w.receipts
    requires a == Step(cfg, w, ReadHead(SignReceipt(cfg, e))) && b == Step(cfg, a, WriteMark)
    ensures b == w.(mark := IdWords(e.id), forwarding := None)
  {
    assert a == w.(forwarding := Some(IdWords(e.id)));
  }

  lemma MarkStep(w: World, e: Inspection)
    requires w.mark == IdWords(e.id) && Carried(e) && Keyed(w.journal)
    requires w.journal.received in w.journal.entries && !w.journal.entries[w.journal.received].received
    requires w.journal.entries[w.journal.received].event == e
    ensures var n := DoProcessMark(w);
            n.journal.received == w.journal.received + 1 && n == w.(journal := n.journal)
  {
    SessionWordsInvert(e.id.session);
    assert SessionOf(w.mark) == SessionOf(SessionWords(e.id.session));
    AckMarksOneRow(w.journal, e.id);
  }

  lemma ReturnTakes(cfg: Config, w: World, e: Inspection, n: World)
    requires Offered(w, e) && SignReceipt(cfg, e) in w.receipts && Keyed(w.journal)
    requires w.journal.received in w.journal.entries && !w.journal.entries[w.journal.received].received
    requires w.journal.entries[w.journal.received].event == e
    requires n == After(cfg, w, Return(cfg, e))
    ensures n.journal.received == w.journal.received + 1 && n.log == w.log && n.consumer == w.consumer
  {
    OfferedIsShown(w, e);
    var a := Step(cfg, w, ReadHead(SignReceipt(cfg, e)));
    var b := Step(cfg, a, WriteMark);
    ForwardStep(cfg, w, e, a, b);
    MarkStep(b, e);
    FourSteps(cfg, w, ReadHead(SignReceipt(cfg, e)), WriteMark, ProcessMark, Display);
  }

  /** What stands next in line, and how the outbox holds it. */
  lemma NextInLine(cfg: Config, w: World, e: Inspection)
    requires ValidConfig(cfg) && Logged(cfg, w) && Outbox(cfg, w)
    requires w.journal.received < |w.log| && w.log[w.journal.received] == e
    ensures Keyed(w.journal) && Head(w.journal) == Some(e) && Carried(e) && AtMillis(e) == e
    ensures var k := w.journal.received;
            k in w.journal.entries && !w.journal.entries[k].received && w.journal.entries[k].event == e
  {
    LogIdsDistinct(cfg, w);
    HeadIsNextInLine(cfg, w);
  }

  lemma LineMeetsNoConflict(cfg: Config, w: World, e: Inspection)
    requires Inv(cfg, w) && OwnedWasPublished(w) && w.journal.received < |w.log| && w.log[w.journal.received] == e
    ensures e.id in w.consumer.inbox ==> w.consumer.inbox[e.id].event == e
  {
    assert e in w.log;
    if e.id in w.consumer.inbox {
      NoConflict(cfg, w, e);
    }
  }

  lemma LineMoves(cfg: Config, w: World, e: Inspection, ulid: string, baseline: Option<int>, now: Time, m: World, n: World)
    requires Ownership.Inv(cfg.inbox, w.consumer) && CanTake(cfg, w.consumer, e, ulid, now)
    requires e.id in w.consumer.inbox ==> w.consumer.inbox[e.id].event == e
    requires Keyed(w.journal) && Head(w.journal) == Some(e) && Carried(e) && AtMillis(e) == e
    requires w.journal.received < |w.log| && w.log[w.journal.received] == e
    requires w.journal.received in w.journal.entries && !w.journal.entries[w.journal.received].received
    requires w.journal.entries[w.journal.received].event == e
    requires m == After(cfg, w, Offer(e, ulid, baseline, now)) && n == After(cfg, m, Return(cfg, e))
    ensures n.journal.received == w.journal.received + 1 && n.log == w.log
    ensures n.consumer == Ownership.Step(cfg.inbox, w.consumer, Ownership.Deliver(e, ulid, baseline, now))
  {
    OfferReaches(cfg, w, e, ulid, baseline, now, m);
    ReturnTakes(cfg, m, e, n);
  }

  /** In every reachable state one round with a consumer that can take it moves the next inspection in
      line, and nothing else, from waiting to received. */
  lemma RoundHandsOver(cfg: Config, w: World, ulid: string, baseline: Option<int>, now: Time, n: World)
    requires Inv(cfg, w) && OwnedWasPublished(w) && w.journal.received < |w.log|
    requires CanTake(cfg, w.consumer, w.log[w.journal.received], ulid, now)
    requires n == After(cfg, w, Round(cfg, w.log[w.journal.received], ulid, baseline, now))
    ensures n.journal.received == w.journal.received + 1 && n.log == w.log
    ensures n.consumer == Ownership.Step(cfg.inbox, w.consumer,
                                         Ownership.Deliver(w.log[w.journal.received], ulid, baseline, now))
  {
    var e := w.log[w.journal.received];
    NextInLine(cfg, w, e);
    LineMeetsNoConflict(cfg, w, e);
    AfterSplits(cfg, w, Offer(e, ulid, baseline, now), Return(cfg, e));
    LineMoves(cfg, w, e, ulid, baseline, now, After(cfg, w, Offer(e, ulid, baseline, now)), n);
  }

  /** In every run, whatever was lost, repeated or restarted before. */
  lemma WaitingIsHandedOver(cfg: Config, events: seq<Event>, ulid: string, baseline: Option<int>, now: Time,
                            w: World, n: World)
    requires ValidConfig(cfg) && w == Run(cfg, events) && w.journal.received < |w.log|
    requires CanTake(cfg, w.consumer, w.log[w.journal.received], ulid, now)
    requires n == Run(cfg, events + Round(cfg, w.log[w.journal.received], ulid, baseline, now))
    ensures n.journal.received == w.journal.received + 1 && n.log == w.log
    ensures n.consumer == Ownership.Step(cfg.inbox, w.consumer,
                                         Ownership.Deliver(w.log[w.journal.received], ulid, baseline, now))
  {
    RunKeepsInv(cfg, events);
    RunKeepsOwned(cfg, events);
    AfterIsRun(cfg, events, Round(cfg, w.log[w.journal.received], ulid, baseline, now));
    RoundHandsOver(cfg, w, ulid, baseline, now, n);
  }

  /** Late enough, an inspection needs no command, and the consumer can always take it. */
  lemma RoundExists(cfg: Config, events: seq<Event>) returns (round: seq<Event>)
    requires ValidConfig(cfg) && Run(cfg, events).journal.received < |Run(cfg, events).log|
    ensures Run(cfg, events + round).log == Run(cfg, events).log
    ensures Run(cfg, events + round).journal.received == Run(cfg, events).journal.received + 1
  {
    var w := Run(cfg, events);
    var e := w.log[w.journal.received];
    var ulid := Ownership.AnotherText(w.consumer.issued);
    var now := Max(w.consumer.clock, e.at + cfg.inbox.maxAge);
    round := Round(cfg, e, ulid, None, now);
    WaitingIsHandedOver(cfg, events, ulid, None, now, w, Run(cfg, events + round));
  }

  /** So many inspections of this run still wait, and this many were ever committed. */
  ghost predicate Waits(cfg: Config, events: seq<Event>, committed: nat, waiting: nat) {
    |Run(cfg, events).log| == committed && Run(cfg, events).journal.received + waiting == committed
  }

  lemma RoundTakesOne(cfg: Config, events: seq<Event>, committed: nat, waiting: nat) returns (round: seq<Event>)
    requires ValidConfig(cfg) && Waits(cfg, events, committed, waiting) && waiting > 0
    ensures Waits(cfg, events + round, committed, waiting - 1) && Run(cfg, events + round).log == Run(cfg, events).log
  {
    round := RoundExists(cfg, events);
  }

  lemma Joined<T>(a: seq<T>, b: seq<T>, c: seq<T>)
    ensures a + b + c == a + (b + c)
  {
  }

  lemma {:induction false} DrainsOn(cfg: Config, events: seq<Event>, round: seq<Event>, later: seq<Event>,
                                    committed: nat, waiting: nat) returns (more: seq<Event>)
    requires ValidConfig(cfg) && later == events + round && Waits(cfg, later, committed, waiting)
    ensures Waits(cfg, events + more, committed, 0) && Run(cfg, events + more).log == Run(cfg, later).log
    decreases waiting, 1
  {
    var rest := Drains(cfg, later, committed, waiting);
    Joined(events, round, rest);
    more := round + rest;
  }

  lemma {:induction false} Drains(cfg: Config, events: seq<Event>, committed: nat, waiting: nat) returns (more: seq<Event>)
    requires ValidConfig(cfg) && Waits(cfg, events, committed, waiting)
    ensures Waits(cfg, events + more, committed, 0) && Run(cfg, events + more).log == Run(cfg, events).log
    decreases waiting, 0
  {
    if waiting == 0 {
      more := [];
      assert events + more == events;
    } else {
      var round := RoundTakesOne(cfg, events, committed, waiting);
      more := DrainsOn(cfg, events, round, events + round, committed, waiting - 1);
    }
  }

  /** From every reachable state, even with the consumer's outbox full, some continuation empties the
      device's outbox: nothing that waits is stuck for good. */
  lemma OutboxCanAlwaysDrain(cfg: Config, events: seq<Event>)
    requires ValidConfig(cfg)
    ensures exists more :: && Run(cfg, events + more).log == Run(cfg, events).log
                           && Run(cfg, events + more).journal.received == |Run(cfg, events).log|
  {
    NothingIsLost(cfg, events);
    var w := Run(cfg, events);
    var more := Drains(cfg, events, |w.log|, |w.log| - w.journal.received);
    assert Run(cfg, events + more).log == w.log;
  }
}
