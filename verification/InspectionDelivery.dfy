/** The inspection hand-over as one protocol: a journalled device that may reboot, a subscriber
    that republishes the retained head and forwards receipts, a consumer that owns inspections,
    and channels that lose, repeat, reorder and forge. */
module InspectionDelivery {
  import opened Common
  import opened InspectionCodec
  import opened InspectionStream
  import opened SourceJournal
  import ConsumerStore
  import Ownership = InspectionOwnership

  datatype ReceiptSignature = ReceiptSignature(key: string, id: InspectionId, digest: Inspection, consumer: string)

  datatype Receipt = Receipt(id: InspectionId, digest: Inspection, consumer: string, signature: ReceiptSignature)

  datatype Config = Config(key: string, consumer: string, capacity: nat, first: nat, inbox: Ownership.Settings)

  predicate ValidConfig(cfg: Config) {
    cfg.capacity > 0 && 0 < cfg.first <= SESSIONS && ConsumerStore.AgeLimit(cfg.inbox.maxAge)
  }

  function SignReceipt(cfg: Config, e: Inspection): Receipt {
    Receipt(e.id, e, cfg.consumer, ReceiptSignature(cfg.key, e.id, e, cfg.consumer))
  }

  predicate VerifyReceipt(cfg: Config, r: Receipt, e: Inspection) {
    r == SignReceipt(cfg, e)
  }

  /** `head` mirrors the ten registers that show the oldest retained inspection, `mark` the five
      in which a receipt identity is written; `log` is every inspection ever committed. */
  datatype World = World(
    journal: Tables<InspectionId>,
    life: Life,
    head: Registers,
    mark: Registers,
    log: seq<Inspection>,
    published: set<Inspection>,
    consumer: Ownership.Consumer,
    due: Option<Inspection>,
    receipts: set<Receipt>,
    forwarding: Option<Registers>)

  datatype Event =
    | Produce(bottle: nat, passed: bool, at: Time, now: Time)
    | IdleCommit(now: Time)
    | Display
    | ProcessMark
    | PowerCycle(now: Time)
    | Poll
    | Consume(step: Ownership.Event)
    | EmitReceipt
    | ConsumerRestart
    | Inject(receipt: Receipt)
    | ReadHead(receipt: Receipt)
    | WriteMark
    | SubscriberRestart

  const NO_MARK: Registers := [0, 0, 0, 0, 0]

  function Start(cfg: Config): World {
    var g := Generator(InspectionId(cfg.first, 0), 0);
    World(Tables(map[], 0, 0, 0, Some(g.last)), Life(g, []), BLANK, NO_MARK, [], {}, Ownership.FRESH, None, {}, None)
  }

  function IdWords(id: InspectionId): Registers {
    SessionWords(id.session) + [id.sequence]
  }

  function Next(w: World, bottle: nat, passed: bool, at: Time): Inspection {
    Inspection(Moved(w.life.generator, Inspect).last, bottle, passed, at)
  }

  /** The tick loop observes a bottle only while the outbox has room. */
  predicate MayProduce(cfg: Config, w: World, bottle: nat, at: Time) {
    && |Unreceived(w.journal)| < cfg.capacity
    && Moved(w.life.generator, Inspect).changes < SESSIONS
    && 0 < bottle < WORD && 0 <= at < MILLIS_END * MILLI && at % MILLI == 0
  }

  function DoProduce(cfg: Config, w: World, bottle: nat, passed: bool, at: Time, now: Time): World {
    var life := Live(w.life, Inspect);
    var event := Next(w, bottle, passed, at);
    var committed := CommitTables(w.journal, life.generator.last, Some(event), now, cfg.capacity);
    if committed.Failure? then w else w.(journal := committed.value, life := life, log := w.log + [event])
  }

  function DoCommitState(cfg: Config, w: World, life: Life, now: Time): World {
    var committed := CommitTables(w.journal, life.generator.last, None, now, cfg.capacity);
    if committed.Failure? then w else w.(journal := committed.value, life := life)
  }

  function DoProcessMark(w: World): World {
    if |w.mark| == 5 && SessionOf(w.mark) > 0 && w.mark[4] > 0
    then w.(journal := AckTables(w.journal, InspectionId(SessionOf(w.mark), w.mark[4])))
    else w
  }

  function Shown(w: World): Option<Inspection> {
    if Decode(w.head).Success? then Decode(w.head).value else None
  }

  predicate Owns(cfg: Config, w: World, e: Ownership.Event) {
    && e.Deliver? && Ownership.Enabled(w.consumer, e)
    && ConsumerStore.Receive(w.consumer.inbox, e.event, e.now, cfg.inbox.maxAge,
                             Ownership.Build(cfg.inbox, e.event, e.ulid, e.now), e.baseline).Success?
  }

  function DoConsume(cfg: Config, w: World, e: Ownership.Event): World {
    w.(consumer := Ownership.Step(cfg.inbox, w.consumer, e), due := if Owns(cfg, w, e) then Some(e.event) else None)
  }

  predicate Enabled(cfg: Config, w: World, e: Event) {
    match e
    case Produce(bottle, _, at, _) => MayProduce(cfg, w, bottle, at)
    case PowerCycle(_) => w.life.generator.changes + 1 < SESSIONS
    case Poll => Shown(w).Some?
    case Consume(step) => step.Deliver? ==> step.event in w.published
    case EmitReceipt => w.due.Some?
    case Inject(r) => r.signature.key == cfg.key ==> exists q :: q in w.receipts && q.signature == r.signature
    case ReadHead(r) => r in w.receipts && Shown(w).Some? && VerifyReceipt(cfg, r, Shown(w).value)
    case WriteMark => w.forwarding.Some?
    case _ => true
  }

  function Step(cfg: Config, w: World, e: Event): World {
    if !Enabled(cfg, w, e) then w
    else match e
         case Produce(bottle, passed, at, now) => DoProduce(cfg, w, bottle, passed, at, now)
         case IdleCommit(now) => DoCommitState(cfg, w, w.life, now)
         case Display => w.(head := Encode(Head(w.journal)))
         case ProcessMark => DoProcessMark(w)
         case PowerCycle(now) => DoCommitState(cfg, w.(head := BLANK, mark := NO_MARK), Live(w.life, Reboot), now)
         case Poll => w.(published := w.published + {Shown(w).value})
         case Consume(step) => DoConsume(cfg, w, step)
         case EmitReceipt => w.(receipts := w.receipts + {SignReceipt(cfg, w.due.value)}, due := None)
         case ConsumerRestart => w.(due := None)
         case Inject(r) => w.(receipts := w.receipts + {r})
         case ReadHead(_) => w.(forwarding := Some(IdWords(Shown(w).value.id)))
         case WriteMark => w.(mark := w.forwarding.value, forwarding := None)
         case SubscriberRestart => w.(forwarding := None)
  }

  // ----- the invariant -----

  /** The log is what the generator named, each inspection fit for the wire. */
  ghost predicate Logged(cfg: Config, w: World)
    requires cfg.first > 0
  {
    && LifeInv(cfg.first, w.life) && w.life.generator.changes < SESSIONS
    && |w.life.issued| == |w.log|
    && forall i | 0 <= i < |w.log| ::
         w.log[i].id == w.life.issued[i].id && Carried(w.log[i]) && AtMillis(w.log[i]) == w.log[i]
  }

  /** The outbox holds the log from the first unreceived inspection on, and the received
      inspections are exactly a prefix of the log. */
  ghost predicate Outbox(cfg: Config, w: World) {
    var t := w.journal;
    && t.next == t.created == |w.log| && t.received <= |w.log|
    && (forall k | k in t.entries ::
          k < |w.log| && t.entries[k].event == w.log[k] && (t.entries[k].received <==> k < t.received))
    && (forall k | t.received <= k < |w.log| :: k in t.entries)
    && |w.log| - t.received <= cfg.capacity
    && t.state == Some(w.life.generator.last)
  }

  /** This inspection is owned, and nothing before it is still waiting. */
  ghost predicate Cleared(w: World, k: int) {
    0 <= k < |w.log| && k <= w.journal.received && w.log[k] in w.consumer.owned
  }

  ghost predicate MarkFits(w: World, mark: Registers) {
    mark == NO_MARK || exists k :: Cleared(w, k) && mark == IdWords(w.log[k].id)
  }

  ghost predicate HeadFits(w: World) {
    w.head == BLANK || exists k :: 0 <= k < |w.log| && k <= w.journal.received && w.head == Encode(Some(w.log[k]))
  }

  ghost predicate Channels(cfg: Config, w: World) {
    && (forall e | e in w.published :: e in w.log)
    && (forall r | r in w.receipts && r.signature.key == cfg.key :: r.signature.digest in w.consumer.owned)
    && (w.due.Some? ==> w.due.value in w.consumer.owned)
  }

  ghost predicate Inv(cfg: Config, w: World) {
    && ValidConfig(cfg)
    && Ownership.Inv(cfg.inbox, w.consumer)
    && Logged(cfg, w)
    && Outbox(cfg, w)
    && (forall k | 0 <= k < w.journal.received :: w.log[k] in w.consumer.owned)
    && HeadFits(w)
    && MarkFits(w, w.mark)
    && (w.forwarding.Some? ==> MarkFits(w, w.forwarding.value))
    && Channels(cfg, w)
  }

  // ----- every event keeps it -----

  lemma LogIdsDistinct(cfg: Config, w: World)
    requires ValidConfig(cfg) && Logged(cfg, w)
    ensures forall i, j | 0 <= i < j < |w.log| :: w.log[i].id != w.log[j].id
  {
    forall i, j | 0 <= i < j < |w.log| ensures w.log[i].id != w.log[j].id {
      IssuesDistinct(cfg.first, w.life, i, j);
    }
  }

  lemma NextIsNew(cfg: Config, w: World)
    requires ValidConfig(cfg) && Logged(cfg, w) && Moved(w.life.generator, Inspect).changes < SESSIONS
    ensures LifeInv(cfg.first, Live(w.life, Inspect))
    ensures ValidId(Moved(w.life.generator, Inspect).last)
    ensures forall i | 0 <= i < |w.log| :: w.log[i].id != Moved(w.life.generator, Inspect).last
  {
    var life := Live(w.life, Inspect);
    LiveKeepsInv(cfg.first, w.life, Inspect);
    assert life.issued[|w.log|] in life.issued;
    forall i | 0 <= i < |w.log| ensures w.log[i].id != Moved(w.life.generator, Inspect).last {
      IssuesDistinct(cfg.first, life, i, |w.log|);
    }
  }

  /** With room in the outbox the commit of a new inspection is never refused. */
  lemma ProduceIsAccepted(cfg: Config, w: World, bottle: nat, passed: bool, at: Time, now: Time)
    requires Inv(cfg, w) && MayProduce(cfg, w, bottle, at)
    ensures var life := Live(w.life, Inspect);
            var event := Next(w, bottle, passed, at);
            && !Holds(w.journal, event.id) && !Conflicts(w.journal, event)
            && CommitTables(w.journal, life.generator.last, Some(event), now, cfg.capacity).Success?
  {
    NextIsNew(cfg, w);
    var event := Next(w, bottle, passed, at);
    forall k | k in w.journal.entries ensures w.journal.entries[k].event.id != event.id {
      assert w.journal.entries[k].event == w.log[k];
    }
  }

  lemma {:induction false} IntervalSize(s: set<nat>, a: nat, b: nat)
    requires a <= b && forall k :: k in s <==> a <= k < b
    ensures |s| == b - a
  {
    if a == b {
      assert s == {};
    } else {
      assert b - 1 in s;
      IntervalSize(s - {b - 1}, a, b - 1);
    }
  }

  lemma WaitingCount(cfg: Config, w: World)
    requires Outbox(cfg, w)
    ensures |Unreceived(w.journal)| == |w.log| - w.journal.received
  {
    IntervalSize(Unreceived(w.journal), w.journal.received, |w.log|);
  }

  /** A longer log, more receipts counted or more owned: what the registers may hold stays fit. */
  ghost predicate Grows(w: World, n: World) {
    && w.log <= n.log && w.journal.received <= n.journal.received
    && w.consumer.owned <= n.consumer.owned
  }

  lemma GrowingKeepsFit(w: World, n: World)
    requires Grows(w, n)
    ensures forall m | MarkFits(w, m) :: MarkFits(n, m)
    ensures n.head == w.head && HeadFits(w) ==> HeadFits(n)
  {
    assert forall k | Cleared(w, k) :: Cleared(n, k) && n.log[k] == w.log[k];
  }

  lemma ProduceKeepsLogged(cfg: Config, w: World, bottle: nat, passed: bool, at: Time)
    requires ValidConfig(cfg) && Logged(cfg, w) && MayProduce(cfg, w, bottle, at)
    ensures Logged(cfg, w.(life := Live(w.life, Inspect), log := w.log + [Next(w, bottle, passed, at)]))
  {
    NextIsNew(cfg, w);
  }

  lemma ProduceKeepsOutbox(cfg: Config, w: World, bottle: nat, passed: bool, at: Time, now: Time)
    requires Outbox(cfg, w) && MayProduce(cfg, w, bottle, at)
    requires var event := Next(w, bottle, passed, at); !Holds(w.journal, event.id) && !Conflicts(w.journal, event)
    ensures DoProduce(cfg, w, bottle, passed, at, now).log == w.log + [Next(w, bottle, passed, at)]
    ensures Outbox(cfg, DoProduce(cfg, w, bottle, passed, at, now))
  {
    WaitingCount(cfg, w);
  }

  lemma ProduceKeepsInv(cfg: Config, w: World, bottle: nat, passed: bool, at: Time, now: Time)
    requires Inv(cfg, w) && MayProduce(cfg, w, bottle, at)
    ensures Inv(cfg, DoProduce(cfg, w, bottle, passed, at, now))
  {
    ProduceIsAccepted(cfg, w, bottle, passed, at, now);
    ProduceKeepsOutbox(cfg, w, bottle, passed, at, now);
    ProduceKeepsLogged(cfg, w, bottle, passed, at);
    GrowingKeepsFit(w, DoProduce(cfg, w, bottle, passed, at, now));
  }

  lemma StateCommitKeepsOutbox(cfg: Config, w: World, life: Life, now: Time)
    requires Outbox(cfg, w)
    ensures Outbox(cfg, DoCommitState(cfg, w, life, now))
    ensures DoCommitState(cfg, w, life, now) == w.(journal := DoCommitState(cfg, w, life, now).journal, life := life)
    ensures DoCommitState(cfg, w, life, now).journal.received == w.journal.received
  {
  }

  lemma StateCommitKeepsInv(cfg: Config, w: World, life: Life, now: Time)
    requires Inv(cfg, w) && Logged(cfg, w.(life := life))
    ensures Inv(cfg, DoCommitState(cfg, w, life, now))
  {
    StateCommitKeepsOutbox(cfg, w, life, now);
    GrowingKeepsFit(w, DoCommitState(cfg, w, life, now));
  }

  lemma HeadIsNextInLine(cfg: Config, w: World)
    requires Outbox(cfg, w)
    ensures Head(w.journal) == if w.journal.received < |w.log| then Some(w.log[w.journal.received]) else None
  {
    assert w.journal.received < |w.log| ==> w.journal.received in Unreceived(w.journal);
  }

  lemma ShownIsLogged(cfg: Config, w: World)
    requires ValidConfig(cfg) && Logged(cfg, w) && HeadFits(w) && Shown(w).Some?
    ensures exists k :: 0 <= k < |w.log| && k <= w.journal.received && w.log[k] == Shown(w).value
  {
    assert w.head != BLANK;
    var k :| 0 <= k < |w.log| && k <= w.journal.received && w.head == Encode(Some(w.log[k]));
    DecodeEncode(w.log[k]);
  }

  lemma MarkNames(cfg: Config, w: World, k: nat)
    requires k < |w.log| && Carried(w.log[k]) && w.mark == IdWords(w.log[k].id)
    ensures |w.mark| == 5 && SessionOf(w.mark) == w.log[k].id.session && w.mark[4] == w.log[k].id.sequence
  {
    SessionWordsInvert(w.log[k].id.session);
  }

  /** A written mark takes out nothing but the next inspection in line, and only an owned one. */
  lemma MarkTakesTheHead(cfg: Config, w: World)
    requires ValidConfig(cfg) && Logged(cfg, w) && Outbox(cfg, w) && MarkFits(w, w.mark)
    ensures DoProcessMark(w) == w
         || (&& w.journal.received < |w.log| && w.log[w.journal.received] in w.consumer.owned
             && w.journal.received in w.journal.entries
             && DoProcessMark(w) == w.(journal := w.journal.(
                  entries := w.journal.entries[w.journal.received := w.journal.entries[w.journal.received].(received := true)],
                  received := w.journal.received + 1)))
  {
    if w.mark != NO_MARK {
      var k :| Cleared(w, k) && w.mark == IdWords(w.log[k].id);
      MarkNames(cfg, w, k);
      LogIdsDistinct(cfg, w);
      AckMarksOneRow(w.journal, w.log[k].id);
    }
  }

  lemma TakingKeepsOutbox(cfg: Config, w: World)
    requires Outbox(cfg, w) && w.journal.received in w.journal.entries
    ensures var k := w.journal.received;
            Outbox(cfg, w.(journal := w.journal.(entries := w.journal.entries[k := w.journal.entries[k].(received := true)],
                                                 received := k + 1)))
  {
  }

  lemma JournalChangeKeepsInv(cfg: Config, w: World, n: World)
    requires Inv(cfg, w) && n == w.(journal := n.journal) && Outbox(cfg, n)
    requires w.journal.received <= n.journal.received
    requires forall k | 0 <= k < n.journal.received :: n.log[k] in n.consumer.owned
    ensures Inv(cfg, n)
  {
    GrowingKeepsFit(w, n);
  }

  lemma TakingKeepsInv(cfg: Config, w: World, n: World)
    requires Inv(cfg, w) && w.journal.received < |w.log| && w.log[w.journal.received] in w.consumer.owned
    requires w.journal.received in w.journal.entries && n == w.(journal := n.journal) && Outbox(cfg, n)
    requires n.journal.received == w.journal.received + 1
    ensures Inv(cfg, n)
  {
    JournalChangeKeepsInv(cfg, w, n);
  }

  lemma MarkKeepsInv(cfg: Config, w: World)
    requires Inv(cfg, w)
    ensures Inv(cfg, DoProcessMark(w))
  {
    MarkTakesTheHead(cfg, w);
    if DoProcessMark(w) != w {
      TakingKeepsOutbox(cfg, w);
      TakingKeepsInv(cfg, w, DoProcessMark(w));
    }
  }

  lemma ReadHeadKeepsInv(cfg: Config, w: World, r: Receipt)
    requires Inv(cfg, w) && Enabled(cfg, w, ReadHead(r))
    ensures Inv(cfg, Step(cfg, w, ReadHead(r)))
  {
    ShownIsLogged(cfg, w);
    var k :| 0 <= k < |w.log| && k <= w.journal.received && w.log[k] == Shown(w).value;
    assert Cleared(w, k);
    GrowingKeepsFit(w, Step(cfg, w, ReadHead(r)));
  }

  lemma ConsumeKeepsInv(cfg: Config, w: World, e: Ownership.Event)
    requires Inv(cfg, w)
    ensures Inv(cfg, DoConsume(cfg, w, e))
  {
    Ownership.StepKeepsInv(cfg.inbox, w.consumer, e);
    GrowingKeepsFit(w, DoConsume(cfg, w, e));
  }

  lemma ChannelEventKeepsInv(cfg: Config, w: World, e: Event)
    requires Inv(cfg, w) && Enabled(cfg, w, e)
    requires e.Poll? || e.EmitReceipt? || e.ConsumerRestart? || e.Inject? || e.WriteMark? || e.SubscriberRestart?
    ensures Inv(cfg, Step(cfg, w, e))
  {
    GrowingKeepsFit(w, Step(cfg, w, e));
    if e.Poll? { ShownIsLogged(cfg, w); }
  }

  lemma DisplayKeepsInv(cfg: Config, w: World)
    requires Inv(cfg, w)
    ensures Inv(cfg, w.(head := Encode(Head(w.journal))))
  {
    HeadIsNextInLine(cfg, w);
    GrowingKeepsFit(w, w.(head := Encode(Head(w.journal))));
  }

  lemma PowerCycleKeepsInv(cfg: Config, w: World, now: Time)
    requires Inv(cfg, w) && w.life.generator.changes + 1 < SESSIONS
    ensures Inv(cfg, DoCommitState(cfg, w.(head := BLANK, mark := NO_MARK), Live(w.life, Reboot), now))
  {
    var off := w.(head := BLANK, mark := NO_MARK);
    LiveKeepsInv(cfg.first, w.life, Reboot);
    GrowingKeepsFit(w, off);
    StateCommitKeepsInv(cfg, off, Live(w.life, Reboot), now);
  }

  lemma DeviceEventKeepsInv(cfg: Config, w: World, e: Event)
    requires Inv(cfg, w) && Enabled(cfg, w, e)
    requires e.Produce? || e.IdleCommit? || e.Display? || e.ProcessMark? || e.PowerCycle?
    ensures Inv(cfg, Step(cfg, w, e))
  {
    match e
    case Produce(bottle, passed, at, now) => ProduceKeepsInv(cfg, w, bottle, passed, at, now);
    case IdleCommit(now) => StateCommitKeepsInv(cfg, w, w.life, now);
    case Display => DisplayKeepsInv(cfg, w);
    case ProcessMark => MarkKeepsInv(cfg, w);
    case PowerCycle(now) => PowerCycleKeepsInv(cfg, w, now);
  }

  lemma StepKeepsInv(cfg: Config, w: World, e: Event)
    requires Inv(cfg, w)
    ensures Inv(cfg, Step(cfg, w, e))
  {
    if Enabled(cfg, w, e) {
      if e.Consume? {
        ConsumeKeepsInv(cfg, w, e.step);
      } else if e.ReadHead? {
        ReadHeadKeepsInv(cfg, w, e.receipt);
      } else if e.Produce? || e.IdleCommit? || e.Display? || e.ProcessMark? || e.PowerCycle? {
        DeviceEventKeepsInv(cfg, w, e);
      } else {
        ChannelEventKeepsInv(cfg, w, e);
      }
    }
  }

  lemma StartKeepsInv(cfg: Config)
    requires ValidConfig(cfg)
    ensures Inv(cfg, Start(cfg))
  {
    assert ConsumerStore.WaitingIds(Ownership.FRESH.inbox) == {};
  }

  ghost function Run(cfg: Config, events: seq<Event>): World {
    if events == [] then Start(cfg)
    else Step(cfg, Run(cfg, events[..|events| - 1]), events[|events| - 1])
  }

  lemma {:induction false} RunKeepsInv(cfg: Config, events: seq<Event>)
    requires ValidConfig(cfg)
    ensures Inv(cfg, Run(cfg, events))
  {
    if events == [] {
      StartKeepsInv(cfg);
    } else {
      RunKeepsInv(cfg, events[..|events| - 1]);
      StepKeepsInv(cfg, Run(cfg, events[..|events| - 1]), events[|events| - 1]);
    }
  }

  /** In every run the received inspections are exactly a prefix of those committed, each owned
      by the consumer with identical content; every later one is still in the outbox, first in
      line first. */
  lemma NothingIsLost(cfg: Config, events: seq<Event>)
    requires ValidConfig(cfg)
    ensures var w := Run(cfg, events);
            && w.journal.received <= |w.log|
            && (forall i | 0 <= i < w.journal.received :: w.log[i] in w.consumer.owned)
            && (forall i | w.journal.received <= i < |w.log| ::
                  i in w.journal.entries && w.journal.entries[i].event == w.log[i] && !w.journal.entries[i].received)
            && (forall i | i in w.journal.entries :: w.journal.entries[i].received <==> i < w.journal.received)
            && Head(w.journal) == (if w.journal.received < |w.log| then Some(w.log[w.journal.received]) else None)
  {
    RunKeepsInv(cfg, events);
    HeadIsNextInLine(cfg, Run(cfg, events));
  }

  /** Created, received and waiting inspections always add up, within the capacity. */
  lemma OutboxBalances(cfg: Config, events: seq<Event>)
    requires ValidConfig(cfg)
    ensures var t := Run(cfg, events).journal;
            && t.created == t.received + |Unreceived(t)| && |Unreceived(t)| <= cfg.capacity
            && t.created == |Run(cfg, events).log|
  {
    RunKeepsInv(cfg, events);
    WaitingCount(cfg, Run(cfg, events));
  }
}
