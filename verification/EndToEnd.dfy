/** From the device that inspects a bottle to the writer that acts on it: one run of the
    inspection hand-over and one run of the writer, over the same commands. */
module EndToEnd {
  import opened Common
  import opened Authorization
  import opened InspectionCodec
  import Delivery = InspectionDelivery
  import Ownership = InspectionOwnership
  import ConsumerStore
  import Inbox = InboxProgress
  import Progress = DeliveryProgress
  import Writer = WriterTheorems
  import WriterProtocol
  import Ledger = LedgerHistory

  /** This issued command is for an inspection the device made, of a failed bottle, and asks for
      exactly that bottle by the inspection's own deadline. */
  ghost predicate Grounded(cfg: Delivery.Config, w: Delivery.World, x: Ownership.Issue) {
    && x.event in w.log && !x.event.passed
    && x.command.value == x.event.bottle && x.command.target == cfg.inbox.target
    && x.command.deadline == x.event.at + cfg.inbox.maxAge
  }

  lemma IssuesAreGrounded(cfg: Delivery.Config, events: seq<Delivery.Event>, x: Ownership.Issue)
    requires Delivery.ValidConfig(cfg) && x in Delivery.Run(cfg, events).consumer.issued
    ensures Grounded(cfg, Delivery.Run(cfg, events), x)
  {
    Progress.RunKeepsOwned(cfg, events);
    Delivery.RunKeepsInv(cfg, events);
    ChannelsHold(cfg, Delivery.Run(cfg, events));
  }

  lemma ChannelsHold(cfg: Delivery.Config, w: Delivery.World)
    requires Delivery.Inv(cfg, w)
    ensures Delivery.Channels(cfg, w) && Delivery.Logged(cfg, w) && Ownership.Inv(cfg.inbox, w.consumer)
  {
  }

  /** Commands issued for inspections with one identity are one command. */
  lemma OneCommandPerIdentity(cfg: Delivery.Config, events: seq<Delivery.Event>, x: Ownership.Issue, y: Ownership.Issue)
    requires Delivery.ValidConfig(cfg)
    requires x in Delivery.Run(cfg, events).consumer.issued && y in Delivery.Run(cfg, events).consumer.issued
    requires x.event.id == y.event.id
    ensures x == y
  {
    var w := Delivery.Run(cfg, events);
    IssuesAreGrounded(cfg, events, x);
    IssuesAreGrounded(cfg, events, y);
    Delivery.RunKeepsInv(cfg, events);
    ChannelsHold(cfg, w);
    Delivery.LogIdsDistinct(cfg, w);
    var i :| 0 <= i < |w.consumer.issued| && w.consumer.issued[i] == x;
    var j :| 0 <= j < |w.consumer.issued| && w.consumer.issued[j] == y;
    IssuedOnce(cfg.inbox, w.consumer, i, j);
  }

  lemma IssuedOnce(cfg: Ownership.Settings, s: Ownership.Consumer, i: nat, j: nat)
    requires Ownership.IssuedApart(cfg, s) && i < |s.issued| && j < |s.issued|
    requires s.issued[i].event == s.issued[j].event
    ensures i == j
  {
    assert i < j ==> Ownership.Apart(cfg, s.issued[i], s.issued[j]);
    assert j < i ==> Ownership.Apart(cfg, s.issued[j], s.issued[i]);
  }

  /** However an inspection is displayed, republished, redelivered, resent, retried and recovered,
      whatever crashes on the way: the writer initiates at most one native command for it, for a
      failed bottle the device itself inspected, by an attempt granted before the inspection's
      deadline. */
  lemma OneInitiationPerInspection(cfg: Delivery.Config, events: seq<Delivery.Event>,
                                   writer: WriterProtocol.Config, run: seq<WriterProtocol.Event>,
                                   x: Ownership.Issue, y: Ownership.Issue, i: nat, j: nat)
    requires Delivery.ValidConfig(cfg) && writer.retention > 0
    requires x in Delivery.Run(cfg, events).consumer.issued && y in Delivery.Run(cfg, events).consumer.issued
    requires var starts := Writer.Run(writer, run).history.starts;
             && i < |starts| && j < |starts|
             && starts[i].digest == Digest(x.command) && starts[j].digest == Digest(y.command)
    requires x.event.id == y.event.id
    ensures i == j && x == y && Grounded(cfg, Delivery.Run(cfg, events), x)
    ensures var h := Writer.Run(writer, run).history;
            var token := h.starts[i].token;
            token in h.grants && h.grants[token].at <= x.event.at + cfg.inbox.maxAge
  {
    OneCommandPerIdentity(cfg, events, x, y);
    IssuesAreGrounded(cfg, events, x);
    Writer.AtMostOneInitiation(writer, run);
    Writer.RunIsSafe(writer, run);
    GrantedInTime(Writer.Run(writer, run).history, writer.retention, i);
  }

  lemma GrantedInTime(h: Ledger.History, retention: Time, i: nat)
    requires Ledger.Inv(h, retention) && i < |h.starts|
    ensures var start := h.starts[i];
            start.token in h.grants && h.grants[start.token].at <= start.digest.of.deadline
  {
    assert h.starts[i] in h.starts;
  }

  /** And all native frames sent for it belong to that one initiation, each position once. */
  lemma OneSetOfFramesPerInspection(cfg: Delivery.Config, events: seq<Delivery.Event>,
                                    writer: WriterProtocol.Config, run: seq<WriterProtocol.Event>,
                                    x: Ownership.Issue, y: Ownership.Issue, i: nat, j: nat)
    requires Delivery.ValidConfig(cfg) && writer.retention > 0
    requires x in Delivery.Run(cfg, events).consumer.issued && y in Delivery.Run(cfg, events).consumer.issued
    requires var frames := Writer.Run(writer, run).frames;
             && i < j < |frames|
             && frames[i].digest == Digest(x.command) && frames[j].digest == Digest(y.command)
    requires x.event.id == y.event.id
    ensures var frames := Writer.Run(writer, run).frames;
            && frames[i].token == frames[j].token && frames[i].delivery == frames[j].delivery
            && frames[i].index < frames[j].index < WriterProtocol.FrameCount(writer, x.command)
  {
    OneCommandPerIdentity(cfg, events, x, y);
    Writer.FramesCarryTheInitiation(writer, run);
    assert Writer.Run(writer, run).frames[j] in Writer.Run(writer, run).frames;
  }

  /** From every reachable state, when the next inspection in line failed, is fresh and new to a consumer
      that has done nothing about its bottle and has room, one round of the hand-over takes it out of the
      device's outbox and leaves exactly one new command, for that bottle. */
  lemma FailuresBecomeCommands(cfg: Delivery.Config, events: seq<Delivery.Event>, e: Inspection, ulid: string,
                               baseline: Option<int>, now: Time, w: Delivery.World, n: Delivery.World)
    requires Delivery.ValidConfig(cfg) && w == Delivery.Run(cfg, events)
    requires w.journal.received < |w.log| && e == w.log[w.journal.received]
    requires Inbox.Needed(cfg.inbox, w.consumer.inbox, e, now)
    requires |ConsumerStore.WaitingIds(w.consumer.inbox)| < 128
    requires w.consumer.clock <= now && forall x | x in w.consumer.issued :: x.command.id != ulid
    requires n == Delivery.Run(cfg, events + Progress.Round(cfg, e, ulid, baseline, now))
    ensures n.journal.received == w.journal.received + 1
    ensures n.consumer.issued == w.consumer.issued + [Ownership.Issue(e, Inbox.RejectCommand(cfg.inbox, e, ulid, now), now)]
  {
    Progress.WaitingIsHandedOver(cfg, events, ulid, baseline, now, w, n);
    Delivery.RunKeepsInv(cfg, events);
    ChannelsHold(cfg, w);
    Inbox.NewIdIsUnused(w.consumer, ulid);
    Inbox.DeliveryIssues(cfg.inbox, w.consumer, e, ulid, baseline, now, n.consumer);
  }
}
