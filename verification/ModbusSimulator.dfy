/** The journalled Modbus device: its tick loop, command mailboxes and restart, each shown to be
    a step of the inspection hand-over protocol. */
module ModbusSimulator {
  import opened Common
  import opened InspectionCodec
  import opened DeviceControls
  import Streams = InspectionStream
  import Journal = SourceJournal
  import Delivery = InspectionDelivery
  import Mailbox = DeviceMailbox

  datatype Command = Command(sequence: nat, operation: nat, value: nat)

  datatype Effect = Effect(target: nat, command: Command, status: Status, before: nat, after: nat)

  /** What one commit makes durable besides the outbox. */
  datatype Saved = Saved(
    inspection: Streams.Kept, bottleCount: nat, motor: Motor, valve: Valve, rejector: Rejector, acks: map<nat, Mailbox.Ack>)

  /** A state a device can resume from. */
  ghost predicate Sound(saved: Saved) {
    Streams.Sound(saved.inspection) && Consistent(saved.rejector)
  }

  const CONVEYOR: nat := 20
  const VALVE: nat := 24
  const REJECT: nat := 28

  const IDLE: Command := Command(0, 0, 0)
  const NO_ACK: Mailbox.Ack := Mailbox.Ack(0, 0)

  /** A mailbox holds a command when its sequence is set and not yet the acknowledged one. */
  predicate Waiting(command: Command, shown: Mailbox.Ack) {
    command.sequence != 0 && command.sequence != shown.sequence
  }

  const EMPTIED: map<nat, Command> := map[CONVEYOR := IDLE, VALVE := IDLE, REJECT := IDLE]

  /** The acknowledgement registers a restart comes up with. */
  function Reshown(acks: map<nat, Mailbox.Ack>): (shown: map<nat, Mailbox.Ack>)
    ensures shown.Keys == {CONVEYOR, VALVE, REJECT}
  {
    map t | t in {CONVEYOR, VALVE, REJECT} :: if t in acks then acks[t] else NO_ACK
  }

  /** A waiting command moves its control and shows the outcome; anything else moves nothing. */
  function Served<C>(command: Command, shown: map<nat, Mailbox.Ack>, target: nat, was: C, applied: (C, Status)): (C, map<nat, Mailbox.Ack>)
    requires target in shown
  {
    if Waiting(command, shown[target]) then (applied.0, shown[target := Mailbox.Ack(command.sequence, applied.1)]) else (was, shown)
  }

  /** The controls and the acknowledgement registers between two belt steps. */
  datatype Controls = Controls(motor: Motor, valve: Valve, rejector: Rejector, shown: map<nat, Mailbox.Ack>)

  /** Each waiting command moves its own control, the conveyor's first and the reject station's last. */
  function ServedAll(commands: map<nat, Command>, was: Controls): Controls
    requires commands.Keys == was.shown.Keys == {CONVEYOR, VALVE, REJECT}
  {
    var c, v, r := commands[CONVEYOR], commands[VALVE], commands[REJECT];
    var (motor, first) := Served(c, was.shown, CONVEYOR, was.motor, ApplyMotor(was.motor, c.operation, c.value));
    var (valve, second) := Served(v, first, VALVE, was.valve, ApplyValve(was.valve, v.operation, v.value));
    var (rejector, third) := Served(r, second, REJECT, was.rejector, ApplyRejector(was.rejector, r.operation, r.value));
    Controls(motor, valve, rejector, third)
  }

  /** No mailbox stands in another's way: each waiting command is applied to its own control and its
      acknowledgement shown with the outcome, and a mailbox without one is left alone. */
  lemma EveryMailboxIsServed(commands: map<nat, Command>, was: Controls)
    requires commands.Keys == was.shown.Keys == {CONVEYOR, VALVE, REJECT}
    ensures var n := ServedAll(commands, was);
            var c, v, r := commands[20], commands[24], commands[28];
            && n.shown.Keys == was.shown.Keys
            && (if c.sequence != 0 && c.sequence != was.shown[20].sequence
                then (n.motor, n.shown[20].status) == ApplyMotor(was.motor, c.operation, c.value)
                     && n.shown[20].sequence == c.sequence
                else n.motor == was.motor && n.shown[20] == was.shown[20])
            && (if v.sequence != 0 && v.sequence != was.shown[24].sequence
                then (n.valve, n.shown[24].status) == ApplyValve(was.valve, v.operation, v.value)
                     && n.shown[24].sequence == v.sequence
                else n.valve == was.valve && n.shown[24] == was.shown[24])
            && (if r.sequence != 0 && r.sequence != was.shown[28].sequence
                then (n.rejector, n.shown[28].status) == ApplyRejector(was.rejector, r.operation, r.value)
                     && n.shown[28].sequence == r.sequence
                else n.rejector == was.rejector && n.shown[28] == was.shown[28])
  {
  }

  /** A jam trips the motor; a belt that then runs carries the next bottle past the reject station. */
  predicate Belt(jam: bool, motor: Motor, count: nat, rejector: Rejector,
                 moved: bool, motorNow: Motor, countNow: nat, rejectorNow: Rejector)
  {
    && motorNow == (if jam then motor.(faulted := true, running := false) else motor)
    && (moved <==> motorNow.running && !motorNow.faulted && motorNow.setpoint > 0)
    && countNow == (if moved then count % 65535 + 1 else count)
    && rejectorNow == (if moved then Passing(rejector, countNow) else rejector)
  }

  /** This mailbox as the write protocol sees it, between polls. */
  predicate Shows(d: Mailbox.Device, command: Command, shown: Mailbox.Ack) {
    && d.phase == Mailbox.Quiet && d.shown == shown
    && d.box.sequence == command.sequence && d.box.operation == command.operation && d.box.value == command.value
  }

  /** Serving a mailbox is one poll of the write protocol with its journal commit and display: the
      same control, the same acknowledgement, durable with its effect before it shows. */
  lemma ServingIsPolling(w: Mailbox.World, command: Command, shown: map<nat, Mailbox.Ack>, target: nat)
    requires target in shown && Shows(w.device, command, shown[target])
    ensures var n := Mailbox.Run(w, [Mailbox.Poll, Mailbox.Journal, Mailbox.Show]);
            var applied := Mailbox.Apply(w.device.control, command.operation, command.value);
            && Served(command, shown, target, w.device.control, applied) == (n.device.control, shown[target := n.device.shown])
            && (Waiting(command, shown[target]) ==>
                  && n.device.durable.ack == n.device.shown && n.device.durable.control == n.device.control
                  && |n.device.durable.effects| == |w.device.durable.effects| + 1)
            && (!Waiting(command, shown[target]) ==> n == w)
  {
    assert [Mailbox.Poll, Mailbox.Journal, Mailbox.Show][1..] == [Mailbox.Journal, Mailbox.Show];
    assert [Mailbox.Journal, Mailbox.Show][1..] == [Mailbox.Show] && [Mailbox.Show][1..] == [];
    var polled := Mailbox.Step(w, Mailbox.Poll);
    var journalled := Mailbox.Step(polled, Mailbox.Journal);
    assert Mailbox.Run(journalled, [Mailbox.Show]) == Mailbox.Run(Mailbox.Step(journalled, Mailbox.Show), []);
    assert Mailbox.Run(polled, [Mailbox.Journal, Mailbox.Show]) == Mailbox.Run(journalled, [Mailbox.Show]);
    assert !Waiting(command, shown[target]) ==> shown[target := shown[target]] == shown;
  }

  /** Serving each kind of control is serving it as the write protocol's control. */
  lemma ControlsServeAlike(command: Command, shown: map<nat, Mailbox.Ack>, target: nat, m: Motor, v: Valve, r: Rejector)
    requires target in shown
    ensures var o, x := command.operation, command.value;
            && Served(command, shown, target, Mailbox.Conveyor(m), Mailbox.Apply(Mailbox.Conveyor(m), o, x))
               == (var s := Served(command, shown, target, m, ApplyMotor(m, o, x)); (Mailbox.Conveyor(s.0), s.1))
            && Served(command, shown, target, Mailbox.FillValve(v), Mailbox.Apply(Mailbox.FillValve(v), o, x))
               == (var s := Served(command, shown, target, v, ApplyValve(v, o, x)); (Mailbox.FillValve(s.0), s.1))
            && Served(command, shown, target, Mailbox.RejectStation(r), Mailbox.Apply(Mailbox.RejectStation(r), o, x))
               == (var s := Served(command, shown, target, r, ApplyRejector(r, o, x)); (Mailbox.RejectStation(s.0), s.1))
  {
  }

  /** The protocol keeps only the identity of the saved state. */
  function Project(t: Journal.Tables<Saved>): Journal.Tables<InspectionId> {
    Journal.Tables(t.entries, t.next, t.created, t.received,
                   if t.state.Some? then Some(t.state.value.inspection.stream.last) else None)
  }

  lemma ProjectCommits(t: Journal.Tables<Saved>, state: Saved, event: Option<Inspection>, now: Time, capacity: nat)
    ensures var full := Journal.CommitTables(t, state, event, now, capacity);
            var plain := Journal.CommitTables(Project(t), state.inspection.stream.last, event, now, capacity);
            && full.Success? == plain.Success?
            && (full.Success? ==> plain.value == Project(full.value))
  {
    assert Journal.Unreceived(Project(t)) == Journal.Unreceived(t);
    if event.Some? {
      assert Journal.Holds(Project(t), event.value.id) == Journal.Holds(t, event.value.id);
      assert Journal.Conflicts(Project(t), event.value) == Journal.Conflicts(t, event.value);
    }
  }

  lemma ProjectAcks(t: Journal.Tables<Saved>, id: InspectionId)
    ensures Journal.AckTables(Project(t), id) == Project(Journal.AckTables(t, id))
  {
    assert Journal.Unreceived(Project(t)) == Journal.Unreceived(t);
    assert Journal.Marks(Project(t), id) == Journal.Marks(t, id);
  }

  lemma ProjectHead(t: Journal.Tables<Saved>)
    ensures Journal.Head(Project(t)) == Journal.Head(t)
  {
    assert Journal.Unreceived(Project(t)) == Journal.Unreceived(t);
  }

  lemma RestartCommits(cfg: Delivery.Config, w: Delivery.World, t: Journal.Tables<Saved>, state: Saved, now: Time)
    requires w.journal == Project(t) && Delivery.Enabled(cfg, w, Delivery.PowerCycle(now))
    requires state.inspection.stream.last == Streams.RebootIdentity(w.life.generator.last)
    ensures var committed := Journal.CommitTables(t, state, None, now, cfg.capacity);
            && committed.Success?
            && Delivery.Step(cfg, w, Delivery.PowerCycle(now)) ==
                 w.(journal := Project(committed.value), life := Streams.Live(w.life, Streams.Reboot),
                    head := BLANK, mark := Delivery.NO_MARK)
  {
    ProjectCommits(t, state, None, now, cfg.capacity);
  }

  class Simulator {
    const journal: Journal.SourceJournal<Saved>
    const stream: Streams.InspectionStream
    var motor: MotorControl
    var rejector: RejectControl
    var valve: Valve
    var bottleCount: nat
    var commands: map<nat, Command>
    var shown: map<nat, Mailbox.Ack>
    var acks: map<nat, Mailbox.Ack>
    var mark: Registers
    var head: Registers
    var effects: seq<Effect>

    ghost predicate Valid()
      reads this, journal, stream, motor, rejector
    {
      && journal.Valid() && stream.Valid() && rejector.Valid()
      && commands.Keys == shown.Keys == {CONVEYOR, VALVE, REJECT}
      && |mark| == 5
    }

    ghost function Snapshot(): Saved
      reads this, stream, motor, rejector
    {
      Saved(Streams.Kept(stream.State(), stream.everyNBottles, stream.failEveryNInspections), bottleCount, motor.State(), valve, rejector.State(), acks)
    }

    /** Whatever a working device saves it can resume from. */
    lemma SnapshotIsSound()
      requires Valid()
      ensures Sound(Snapshot())
    {
    }

    /** The device half of a protocol state is this device. */
    ghost predicate Mirrors(cfg: Delivery.Config, w: Delivery.World)
      reads this, journal, stream
    {
      && cfg.capacity == journal.capacity
      && w.journal == Project(journal.Contents())
      && w.life.generator.last == stream.State().last
      && w.head == head && w.mark == mark
    }

    /** A device without a past starts the protocol. */
    constructor (session: nat, every: nat, failEvery: nat, capacity: nat, now: Time, ghost cfg: Delivery.Config)
      requires Delivery.ValidConfig(cfg) && cfg.first == session && cfg.capacity == capacity
      requires 0 < session < QWORD && every > 0 && failEvery > 0
      ensures Valid() && Mirrors(cfg, Delivery.Start(cfg)) && acks == map[] && effects == []
      ensures motor.State() == Motor(80, 50, true, false) && valve == Valve(true) && bottleCount == 0
      ensures rejector.State() == Rejector(32, 0, 0, [], {})
      ensures stream.State() == Streams.Stream(InspectionId(session, 0), 0, 0, 0, BLANK)
      ensures stream.everyNBottles == every && stream.failEveryNInspections == failEvery
      ensures fresh(journal) && fresh(stream) && fresh(motor) && fresh(rejector)
    {
      journal := new Journal.SourceJournal<Saved>(capacity);
      stream := new Streams.InspectionStream(session, every, failEvery);
      motor := new MotorControl(80, 50);
      rejector := new RejectControl(32);
      valve := Valve(true);
      bottleCount := 0;
      commands := EMPTIED;
      shown := map[CONVEYOR := NO_ACK, VALVE := NO_ACK, REJECT := NO_ACK];
      acks, mark, head, effects := map[], Delivery.NO_MARK, BLANK, [];
      new;
      var state := Save();
      ProjectCommits(journal.Contents(), state, None, now, journal.capacity);
      var r := journal.Commit(state, None, now);
    }

    /** A restart resumes from the last commit in the next session; registers come up empty except
        for the saved acknowledgements. It is the protocol's power cycle. */
    constructor Reopen(store: Journal.SourceJournal<Saved>, now: Time, ghost cfg: Delivery.Config, ghost w: Delivery.World)
      requires store.Valid() && store.state.Some? && Sound(store.state.value)
      requires cfg.capacity == store.capacity && w.journal == Project(store.Contents())
      requires w.life.generator.last == store.state.value.inspection.stream.last
      requires Delivery.Enabled(cfg, w, Delivery.PowerCycle(now))
      modifies store
      ensures Valid() && journal == store && Mirrors(cfg, Delivery.Step(cfg, w, Delivery.PowerCycle(now)))
      ensures var saved := old(store.state).value;
              && stream.State() == saved.inspection.stream.(last := Streams.RebootIdentity(saved.inspection.stream.last))
              && stream.everyNBottles == saved.inspection.every && stream.failEveryNInspections == saved.inspection.failEvery
              && motor.State() == saved.motor && valve == saved.valve && rejector.State() == saved.rejector
              && bottleCount == saved.bottleCount && acks == saved.acks
      ensures shown == Reshown(acks) && commands == EMPTIED
      ensures forall t | t in {20, 24, 28} :: shown[t] == if t in acks then acks[t] else Mailbox.Ack(0, 0)
      ensures head == [0, 0, 0, 0, 0, 0, 0, 0, 0, 0] && mark == [0, 0, 0, 0, 0]
      ensures fresh(stream) && fresh(motor) && fresh(rejector)
    {
      var saved := store.state.value;
      journal := store;
      stream := new Streams.InspectionStream.Restore(saved.inspection);
      motor := new MotorControl.Restore(saved.motor);
      rejector := new RejectControl.Restore(saved.rejector);
      valve := saved.valve;
      bottleCount := saved.bottleCount;
      commands := EMPTIED;
      shown := Reshown(saved.acks);
      acks, mark, head, effects := saved.acks, Delivery.NO_MARK, BLANK, [];
      new;
      var state := Save();
      RestartCommits(cfg, w, store.Contents(), state, now);
      var r := store.Commit(state, None, now);
    }

    method Save() returns (s: Saved)
      ensures s == Snapshot()
    {
      s := Saved(
        Streams.Kept(Streams.Stream(InspectionId(stream.session, stream.sequence), stream.bottles, stream.inspected,
                                    stream.failed, stream.snapshot),
                     stream.everyNBottles, stream.failEveryNInspections),
        bottleCount, Motor(motor.maxSpeed, motor.setpoint, motor.running, motor.faulted), valve,
        Rejector(rejector.window, rejector.count, rejector.lastBottle, rejector.present, rejector.rejected), acks);
    }

    /** A state commit without an event is never refused and is the protocol's idle commit. */
    method CommitState(now: Time, ghost cfg: Delivery.Config, ghost w: Delivery.World) returns (ghost n: Delivery.World)
      requires Valid() && Mirrors(cfg, w)
      modifies journal
      ensures Valid() && n == Delivery.Step(cfg, w, Delivery.IdleCommit(now))
      ensures Mirrors(cfg, n)
      ensures journal.state == Some(Snapshot())
    {
      var state := Save();
      ProjectCommits(journal.Contents(), state, None, now, journal.capacity);
      n := Delivery.Step(cfg, w, Delivery.IdleCommit(now));
      var r := journal.Commit(state, None, now);
    }

    /** A written receipt mark is handed to the journal. */
    method ProcessMark(ghost cfg: Delivery.Config, ghost w: Delivery.World) returns (ghost n: Delivery.World)
      requires Valid() && Mirrors(cfg, w)
      modifies journal
      ensures Valid() && n == Delivery.Step(cfg, w, Delivery.ProcessMark)
      ensures Mirrors(cfg, n)
    {
      n := Delivery.Step(cfg, w, Delivery.ProcessMark);
      var session := SessionOf(mark);
      if session > 0 && mark[4] > 0 {
        ProjectAcks(journal.Contents(), InspectionId(session, mark[4]));
        var known := journal.Ack(InspectionId(session, mark[4]));
      }
    }

    /** An answered command is durable, with its effect, before its acknowledgement shows. */
    method Acknowledge(target: nat, status: Status, before: nat, now: Time,
                       ghost cfg: Delivery.Config, ghost w: Delivery.World)
      returns (ghost n: Delivery.World)
      requires Valid() && Mirrors(cfg, w) && target in commands
      modifies this`acks, this`shown, this`effects, journal
      ensures Valid() && n == Delivery.Step(cfg, w, Delivery.IdleCommit(now))
      ensures Mirrors(cfg, n)
      ensures var ack := Mailbox.Ack(commands[target].sequence, status);
              && acks == old(acks)[target := ack] && shown == old(shown)[target := ack]
              && effects == old(effects) + [Effect(target, commands[target], status, before, rejector.count)]
      ensures journal.state == Some(Snapshot())
    {
      var ack := Mailbox.Ack(commands[target].sequence, status);
      acks := acks[target := ack];
      effects := effects + [Effect(target, commands[target], status, before, rejector.count)];
      n := CommitState(now, cfg, w);
      shown := shown[target := ack];
    }

    /** Repeated idle commits at one reading of the clock are one. */
    static ghost predicate Committed(cfg: Delivery.Config, m: Delivery.World, now: Time, n: Delivery.World) {
      n == m || n == Delivery.Step(cfg, m, Delivery.IdleCommit(now))
    }

    static lemma CommittedChains(cfg: Delivery.Config, m: Delivery.World, k: Delivery.World, n: Delivery.World, now: Time)
      requires Committed(cfg, m, now, k) && Committed(cfg, k, now, n)
      ensures Committed(cfg, m, now, n)
    {
    }

    method ServeConveyor(now: Time, ghost cfg: Delivery.Config, ghost w: Delivery.World) returns (ghost n: Delivery.World)
      requires Valid() && Mirrors(cfg, w)
      modifies this`acks, this`shown, this`effects, journal, motor
      ensures Valid() && Mirrors(cfg, n) && Committed(cfg, w, now, n)
      ensures var c := commands[CONVEYOR];
              (motor.State(), shown) == Served(c, old(shown), CONVEYOR, old(motor.State()),
                                               ApplyMotor(old(motor.State()), c.operation, c.value))
    {
      n := w;
      if Waiting(commands[CONVEYOR], shown[CONVEYOR]) {
        var status := motor.Apply(commands[CONVEYOR].operation, commands[CONVEYOR].value);
        n := Acknowledge(CONVEYOR, status, rejector.count, now, cfg, w);
      }
    }

    method ServeValve(now: Time, ghost cfg: Delivery.Config, ghost w: Delivery.World) returns (ghost n: Delivery.World)
      requires Valid() && Mirrors(cfg, w)
      modifies this`acks, this`shown, this`effects, this`valve, journal
      ensures Valid() && Mirrors(cfg, n) && Committed(cfg, w, now, n)
      ensures var c := commands[VALVE];
              (valve, shown) == Served(c, old(shown), VALVE, old(valve), ApplyValve(old(valve), c.operation, c.value))
    {
      n := w;
      if Waiting(commands[VALVE], shown[VALVE]) {
        var (state, status) := ApplyValve(valve, commands[VALVE].operation, commands[VALVE].value);
        valve := state;
        n := Acknowledge(VALVE, status, rejector.count, now, cfg, w);
      }
    }

    method ServeReject(now: Time, ghost cfg: Delivery.Config, ghost w: Delivery.World) returns (ghost n: Delivery.World)
      requires Valid() && Mirrors(cfg, w)
      modifies this`acks, this`shown, this`effects, journal, rejector
      ensures Valid() && Mirrors(cfg, n) && Committed(cfg, w, now, n)
      ensures var c := commands[REJECT];
              (rejector.State(), shown) == Served(c, old(shown), REJECT, old(rejector.State()),
                                                  ApplyRejector(old(rejector.State()), c.operation, c.value))
      ensures effects == if Waiting(commands[REJECT], old(shown)[REJECT])
                         then old(effects) + [Effect(REJECT, commands[REJECT], shown[REJECT].status, old(rejector.count),
                                                     rejector.count)]
                         else old(effects)
    {
      n := w;
      if Waiting(commands[REJECT], shown[REJECT]) {
        var before := rejector.count;
        var status := rejector.Apply(commands[REJECT].operation, commands[REJECT].value);
        n := Acknowledge(REJECT, status, before, now, cfg, w);
      }
    }

    /** Each waiting command is applied to its own control once and acknowledged with the outcome;
        a mailbox without one is left alone. */
    method ProcessControls(now: Time, ghost cfg: Delivery.Config, ghost w: Delivery.World) returns (ghost n: Delivery.World)
      requires Valid() && Mirrors(cfg, w)
      modifies this`acks, this`shown, this`effects, this`valve, journal, motor, rejector
      ensures Valid() && Mirrors(cfg, n)
      ensures Committed(cfg, Delivery.Step(cfg, w, Delivery.ProcessMark), now, n)
      ensures Controls(motor.State(), valve, rejector.State(), shown)
           == ServedAll(commands, old(Controls(motor.State(), valve, rejector.State(), shown)))
    {
      ghost var marked := ProcessMark(cfg, w);
      ghost var first := ServeConveyor(now, cfg, marked);
      ghost var second := ServeValve(now, cfg, first);
      CommittedChains(cfg, marked, first, second, now);
      n := ServeReject(now, cfg, second);
      CommittedChains(cfg, marked, second, n, now);
    }

    /** One belt step: a jam trips the motor, and a running belt carries one more bottle past. */
    method MoveBelt(jam: bool) returns (moved: bool)
      requires rejector.Valid()
      modifies this`bottleCount, motor, rejector
      ensures rejector.Valid()
      ensures motor.State() == if jam then old(motor.State()).(faulted := true, running := false) else old(motor.State())
      ensures moved <==> motor.running && !motor.faulted && motor.setpoint > 0
      ensures bottleCount == if moved then old(bottleCount) % 65535 + 1 else old(bottleCount)
      ensures rejector.State() == if moved then Passing(old(rejector.State()), bottleCount) else old(rejector.State())
    {
      if jam {
        var status := motor.Apply(4, 1);
      }
      moved := motor.running && !motor.faulted && motor.setpoint > 0;
      if moved {
        bottleCount := bottleCount % REGISTER_MAX + 1;
        rejector.Observe(bottleCount);
      }
    }

    /** With room in the outbox, observing a bottle and committing what it yields never fails for
        want of capacity or for a reused identity; only an unusable clock reading stops it. */
    method Inspect(now: Time, ghost cfg: Delivery.Config, ghost w: Delivery.World)
      returns (r: Result<()>, ghost made: Delivery.Event, ghost n: Delivery.World)
      requires Valid() && Mirrors(cfg, w) && Unused(w)
      requires |Journal.Unreceived(w.journal)| < cfg.capacity
      requires 0 < bottleCount < WORD && Streams.Nameable(now)
      modifies stream, journal
      ensures r.Success? <==> !Streams.Due(stream.everyNBottles, old(stream.State())) || Streams.Timely(now)
      ensures r.Success? ==>
                && Valid() && Mirrors(cfg, n) && n == Delivery.Step(cfg, w, made)
                && made == Made(stream.everyNBottles, stream.failEveryNInspections, old(stream.State()), bottleCount, now)
      ensures r.Success? ==> journal.state == Some(Snapshot())
      ensures r.Success? && made.Produce? ==>
                n.log == w.log + [Streams.Yielded(stream.failEveryNInspections, old(stream.State()), bottleCount, now)]
    {
      ghost var was := stream.State();
      var inspected := stream.inspected;
      made := Made(stream.everyNBottles, stream.failEveryNInspections, was, bottleCount, now);
      n := Delivery.Step(cfg, w, made);
      r := stream.Observe(bottleCount, now);
      if r.Failure? {
        return;
      }
      var event: Option<Inspection> := None;
      if stream.inspected != inspected {
        Streams.SnapshotDecodes(stream.everyNBottles, stream.failEveryNInspections, was, bottleCount, now);
        event := Decode(stream.snapshot).value;
      }
      var state := Save();
      MadeIsAccepted(cfg, w, journal.Contents(), was, stream.everyNBottles, stream.failEveryNInspections, bottleCount, now,
                     state, event);
      var committed := journal.Commit(state, event, now);
    }

    method Display(ghost cfg: Delivery.Config, ghost w: Delivery.World) returns (ghost n: Delivery.World)
      requires Valid() && Mirrors(cfg, w)
      modifies this`head
      ensures Valid() && Mirrors(cfg, n) && n == Delivery.Step(cfg, w, Delivery.Display)
      ensures Snapshot() == old(Snapshot())
    {
      ProjectHead(journal.Contents());
      var oldest := journal.Oldest();
      head := Encode(oldest);
      n := Delivery.Step(cfg, w, Delivery.Display);
    }

    /** The rest of a turn: with a full outbox the device stands still, otherwise the belt moves on;
        either way the state is committed, with the inspection the bottle yielded, if any, and the
        oldest waiting inspection shown. */
    method Work(now: Time, jam: bool, ghost cfg: Delivery.Config, ghost w: Delivery.World)
      returns (r: Result<()>, full: bool, moved: bool, ghost made: Delivery.Event, ghost n: Delivery.World)
      requires Valid() && Mirrors(cfg, w) && Unused(w) && Streams.Nameable(now)
      modifies this`bottleCount, this`head, journal, stream, motor, rejector
      ensures full <==> |Journal.Unreceived(w.journal)| >= cfg.capacity
      ensures full ==> !moved && stream.State() == old(stream.State())
      ensures if full
              then motor.State() == old(motor.State()) && bottleCount == old(bottleCount)
                   && rejector.State() == old(rejector.State())
              else Belt(jam, old(motor.State()), old(bottleCount), old(rejector.State()),
                        moved, motor.State(), bottleCount, rejector.State())
      ensures r.Failure? ==> moved && Streams.Due(stream.everyNBottles, old(stream.State())) && !Streams.Timely(now)
      ensures r.Success? ==> Valid() && Mirrors(cfg, n) && n == Delivery.Step(cfg, Delivery.Step(cfg, w, made), Delivery.Display)
      ensures r.Success? ==> journal.state == Some(Snapshot())
      ensures r.Success? ==>
        made == if moved
                then Made(stream.everyNBottles, stream.failEveryNInspections, old(stream.State()), bottleCount, now)
                else Delivery.IdleCommit(now)
    {
      assert Journal.Unreceived(w.journal) == Journal.Unreceived(journal.Contents());
      var waiting := journal.Pending();
      full, moved, r, made := waiting >= journal.capacity, false, Success(()), Delivery.IdleCommit(now);
      if !full {
        moved := MoveBelt(jam);
      }
      if moved {
        r, made, n := Inspect(now, cfg, w);
      } else {
        n := CommitState(now, cfg, w);
      }
      if r.Success? {
        n := Display(cfg, n);
      }
    }

    /** One turn of the loop is a short run of the protocol: the receipt mark, idle commits for
        answered commands, then one inspection exactly when there is room, the belt moved and the
        bottle is due, and the display of the oldest waiting inspection. */
    method Tick(now: Time, jam: bool, ghost cfg: Delivery.Config, ghost w: Delivery.World)
      returns (r: Result<()>, full: bool, moved: bool, ghost ready: Controls, ghost served: Delivery.World,
               ghost made: Delivery.Event, ghost n: Delivery.World)
      requires Valid() && Mirrors(cfg, w) && Unused(w) && Streams.Nameable(now)
      modifies this`acks, this`shown, this`effects, this`valve, this`bottleCount, this`head
      modifies journal, stream, motor, rejector
      ensures Committed(cfg, Delivery.Step(cfg, w, Delivery.ProcessMark), now, served)
      ensures full <==> |Journal.Unreceived(served.journal)| >= cfg.capacity
      ensures full ==> !moved && stream.State() == old(stream.State())
      ensures ready == ServedAll(commands, old(Controls(motor.State(), valve, rejector.State(), shown)))
      ensures valve == ready.valve && shown == ready.shown
      ensures if full
              then motor.State() == ready.motor && bottleCount == old(bottleCount) && rejector.State() == ready.rejector
              else Belt(jam, ready.motor, old(bottleCount), ready.rejector,
                        moved, motor.State(), bottleCount, rejector.State())
      ensures r.Failure? ==> moved && Streams.Due(stream.everyNBottles, old(stream.State())) && !Streams.Timely(now)
      ensures r.Success? ==>
        && Valid() && Mirrors(cfg, n) && journal.state == Some(Snapshot())
        && n == Delivery.Step(cfg, Delivery.Step(cfg, served, made), Delivery.Display)
      ensures r.Success? ==>
        made == if moved
                then Made(stream.everyNBottles, stream.failEveryNInspections, old(stream.State()), bottleCount, now)
                else Delivery.IdleCommit(now)
    {
      served := ProcessControls(now, cfg, w);
      ready := Controls(motor.State(), valve, rejector.State(), shown);
      ServedKeepsUnused(cfg, w, now, served);
      r, full, moved, made, n := Work(now, jam, cfg, served);
    }

    static lemma ServedKeepsUnused(cfg: Delivery.Config, w: Delivery.World, now: Time, served: Delivery.World)
      requires Unused(w) && Committed(cfg, Delivery.Step(cfg, w, Delivery.ProcessMark), now, served)
      ensures Unused(served)
    {
    }
  }

  /** The outbox has no row for the identity the next inspection will get, and one is left. */
  predicate Unused(w: Delivery.World) {
    var next := Streams.Moved(w.life.generator, Streams.Inspect);
    next.changes < Streams.SESSIONS && !Journal.Holds(w.journal, next.last)
  }

  /** So it is in every reachable state of the protocol, until the sessions have all been used. */
  lemma ReachableIsUnused(cfg: Delivery.Config, events: seq<Delivery.Event>)
    requires Delivery.ValidConfig(cfg)
    requires Streams.Moved(Delivery.Run(cfg, events).life.generator, Streams.Inspect).changes < Streams.SESSIONS
    ensures Unused(Delivery.Run(cfg, events))
  {
    var w := Delivery.Run(cfg, events);
    Delivery.RunKeepsInv(cfg, events);
    Delivery.NextIsNew(cfg, w);
    forall k | k in w.journal.entries
      ensures w.journal.entries[k].event.id != Streams.Moved(w.life.generator, Streams.Inspect).last
    {
      assert w.journal.entries[k].event == w.log[k];
    }
  }

  /** The protocol event a passing bottle amounts to. */
  function Made(every: nat, failEvery: nat, s: Streams.Stream, bottle: nat, now: Time): Delivery.Event
    requires every > 0 && failEvery > 0
  {
    if Streams.Due(every, s)
    then Delivery.Produce(bottle, (s.inspected + 1) % failEvery != 0, Streams.Millis(now) * MILLI, now)
    else Delivery.IdleCommit(now)
  }

  lemma YieldIsAccepted(cfg: Delivery.Config, w: Delivery.World, t: Journal.Tables<Saved>, s: Streams.Stream,
                        failEvery: nat, bottle: nat, now: Time, state: Saved)
    requires Unused(w) && w.journal == Project(t) && w.life.generator.last == s.last
    requires |Journal.Unreceived(w.journal)| < cfg.capacity
    requires 0 < bottle < WORD && Streams.Nameable(now) && Streams.Timely(now) && failEvery > 0
    requires state.inspection.stream.last == Streams.NextIdentity(s.last)
    ensures var event := Streams.Yielded(failEvery, s, bottle, now);
            var step := Delivery.Produce(bottle, event.passed, event.at, now);
            var committed := Journal.CommitTables(t, state, Some(event), now, cfg.capacity);
            && committed.Success?
            && Delivery.Step(cfg, w, step) ==
                 w.(journal := Project(committed.value), life := Streams.Live(w.life, Streams.Inspect), log := w.log + [event])
  {
    ProjectCommits(t, state, Some(Streams.Yielded(failEvery, s, bottle, now)), now, cfg.capacity);
  }

  /** Due or not, what an observed bottle amounts to is committed. */
  lemma MadeIsAccepted(cfg: Delivery.Config, w: Delivery.World, t: Journal.Tables<Saved>, s: Streams.Stream,
                       every: nat, failEvery: nat, bottle: nat, now: Time, state: Saved, event: Option<Inspection>)
    requires Unused(w) && w.journal == Project(t) && w.life.generator.last == s.last
    requires |Journal.Unreceived(w.journal)| < cfg.capacity && every > 0 && failEvery > 0
    requires 0 < bottle < WORD && Streams.Nameable(now) && (Streams.Due(every, s) ==> Streams.Timely(now))
    requires state.inspection.stream.last == Streams.Observed(every, failEvery, s, bottle, now).last
    requires event == if Streams.Due(every, s) then Some(Streams.Yielded(failEvery, s, bottle, now)) else None
    ensures var committed := Journal.CommitTables(t, state, event, now, cfg.capacity);
            var n := Delivery.Step(cfg, w, Made(every, failEvery, s, bottle, now));
            && committed.Success? && n.journal == Project(committed.value)
            && n.life.generator.last == state.inspection.stream.last && n.head == w.head && n.mark == w.mark
            && n.log == (if event.Some? then w.log + [event.value] else w.log)
  {
    if Streams.Due(every, s) {
      YieldIsAccepted(cfg, w, t, s, failEvery, bottle, now, state);
    } else {
      ProjectCommits(t, state, None, now, cfg.capacity);
    }
  }
}
