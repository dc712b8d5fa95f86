/** One native write against a device that polls its mailbox, journals what it applied and may
    reboot between any two steps: the payload goes first, the sequence commits it, and the
    acknowledgement repeats the sequence with a status. */
module DeviceMailbox {
  import opened DeviceControls

  datatype Control = Conveyor(motor: Motor) | FillValve(valve: Valve) | RejectStation(rejector: Rejector)

  function Apply(c: Control, operation: nat, value: nat): (Control, Status) {
    match c
    case Conveyor(m) => var (n, status) := ApplyMotor(m, operation, value); (Conveyor(n), status)
    case FillValve(v) => var (n, status) := ApplyValve(v, operation, value); (FillValve(n), status)
    case RejectStation(r) => var (n, status) := ApplyRejector(r, operation, value); (RejectStation(n), status)
  }

  /** Command registers. `ours` says whether the payload in them is the one this writer sent. */
  datatype Box = Box(sequence: nat, operation: nat, value: nat, ours: bool)

  datatype Ack = Ack(sequence: nat, status: Status)

  datatype Effect = Effect(sequence: nat, operation: nat, value: nat, status: Status, ours: bool)

  datatype Durable = Durable(ack: Ack, control: Control, effects: seq<Effect>)

  /** The poll applies, then journals, then shows the acknowledgement; a reboot can come between. */
  datatype Phase = Quiet | Applied(effect: Effect) | Journalled

  datatype Device = Device(box: Box, shown: Ack, ack: Ack, control: Control, durable: Durable, phase: Phase)

  datatype WriterPc = Connecting | Numbered | PayloadSent | SequenceSent | Succeeded | Failed

  datatype Writer = Writer(operation: nat, raw: nat, sequence: nat, pc: WriterPc)

  /** `applied` lists every application, durable or lost in a reboot. */
  datatype World = World(device: Device, writer: Writer, applied: seq<Effect>)

  datatype Event =
    | Poll
    | Journal
    | Show
    | Snapshot
    | Evolve(control: Control)
    | Reboot
    | ReadAck(draw: nat)
    | WritePayload
    | WriteSequence
    | AwaitAck
    | GiveUp

  /** A drawn number is moved on by one if it is the number last acknowledged. */
  function ChooseSequence(previous: nat, draw: nat): (s: nat)
    requires draw < REGISTER_MAX
    ensures 0 < s <= REGISTER_MAX && s != previous
    ensures draw + 1 != previous ==> s == draw + 1
    ensures draw + 1 == previous ==> s == if previous == 65535 then 1 else previous + 1
  {
    var s := draw + 1;
    if s != previous then s else s % REGISTER_MAX + 1
  }

  predicate Enabled(w: World, e: Event) {
    match e
    case Poll => w.device.phase == Quiet && w.device.box.sequence != 0 && w.device.box.sequence != w.device.shown.sequence
    case Journal => w.device.phase.Applied?
    case Show => w.device.phase == Journalled
    case Snapshot => w.device.phase == Quiet
    case Evolve(_) => w.device.phase == Quiet
    case Reboot => true
    case ReadAck(draw) => w.writer.pc == Connecting && draw < REGISTER_MAX
    case WritePayload => w.writer.pc == Numbered
    case WriteSequence => w.writer.pc == PayloadSent
    case AwaitAck => w.writer.pc == SequenceSent && w.device.shown.sequence == w.writer.sequence
    case GiveUp => w.writer.pc != Succeeded
  }

  function DoPoll(w: World): World {
    var d := w.device;
    var (control, status) := Apply(d.control, d.box.operation, d.box.value);
    var effect := Effect(d.box.sequence, d.box.operation, d.box.value, status, d.box.ours);
    w.(device := d.(control := control, ack := Ack(d.box.sequence, status), phase := Applied(effect)),
       applied := w.applied + [effect])
  }

  function Step(w: World, e: Event): World {
    if !Enabled(w, e) then w
    else
      var d := w.device;
      match e
      case Poll => DoPoll(w)
      case Journal =>
        w.(device := d.(durable := Durable(d.ack, d.control, d.durable.effects + [d.phase.effect]), phase := Journalled))
      case Show => w.(device := d.(shown := d.ack, phase := Quiet))
      case Snapshot => w.(device := d.(durable := d.durable.(ack := d.ack, control := d.control)))
      case Evolve(control) => w.(device := d.(control := control))
      case Reboot =>
        w.(device := Device(Box(0, 0, 0, false), d.durable.ack, d.durable.ack, d.durable.control, d.durable, Quiet))
      case ReadAck(draw) => w.(writer := w.writer.(sequence := ChooseSequence(d.shown.sequence, draw), pc := Numbered))
      case WritePayload =>
        w.(device := d.(box := Box(d.box.sequence, w.writer.operation, w.writer.raw, true)),
           writer := w.writer.(pc := PayloadSent))
      case WriteSequence =>
        w.(device := d.(box := d.box.(sequence := w.writer.sequence)), writer := w.writer.(pc := SequenceSent))
      case AwaitAck => w.(writer := w.writer.(pc := if d.shown.status == APPLIED then Succeeded else Failed))
      case GiveUp => w.(writer := w.writer.(pc := Failed))
  }

  function Run(w: World, events: seq<Event>): World
    decreases |events|
  {
    if events == [] then w else Run(Step(w, events[0]), events[1..])
  }

  /** The writer connects to a device at rest. */
  predicate Starting(w: World) {
    && w.writer.pc == Connecting && w.applied == []
    && w.device.phase == Quiet && w.device.shown == w.device.ack == w.device.durable.ack
    && !w.device.box.ours && w.device.durable.effects == []
  }

  /** No earlier command is still waiting in the mailbox. */
  predicate Quiescent(d: Device) {
    d.box.sequence == 0 || d.box.sequence == d.shown.sequence
  }

  /** Nothing is under way in the device, and what it shows is what it has made durable. */
  predicate AtRest(d: Device) {
    d.phase == Quiet && d.shown == d.ack == d.durable.ack
  }

  // ----- from a quiescent mailbox -----

  predicate Intact(e: Effect, w: Writer) {
    e.operation == w.operation && e.value == w.raw && e.ours
  }

  /** The payload was lost in a reboot, and every control refuses the empty one. */
  predicate RefusedEmpty(e: Effect) {
    e.operation == 0 && e.value == 0 && e.status == INVALID && !e.ours
  }

  predicate OwnEffect(e: Effect, w: Writer) {
    e.sequence == w.sequence && (Intact(e, w) || RefusedEmpty(e))
  }

  lemma EmptyPayloadIsRefused(c: Control)
    ensures Apply(c, 0, 0) == (c, INVALID)
  {
  }

  ghost predicate Resting(d: Device) {
    d.phase == Quiet && d.shown == d.ack == d.durable.ack && d.durable.effects == []
  }

  predicate PayloadFits(d: Device, w: Writer) {
    || (d.box.operation == w.operation && d.box.value == w.raw && d.box.ours)
    || (d.box.operation == 0 && d.box.value == 0 && !d.box.ours)
  }

  /** Only this writer's own number can make the mailbox fire. */
  predicate Loaded(d: Device, w: Writer) {
    d.box.sequence == w.sequence && PayloadFits(d, w)
  }

  /** Nothing was applied yet. */
  ghost predicate Before(w: World) {
    && w.applied == [] && Resting(w.device)
    && (w.writer.pc == Numbered || w.writer.pc == PayloadSent || w.writer.pc == SequenceSent ==>
          w.writer.sequence != w.device.shown.sequence)
    && (w.writer.pc == PayloadSent ==> PayloadFits(w.device, w.writer))
    && w.writer.pc != Succeeded
    && (Quiescent(w.device)
        || ((w.writer.pc == SequenceSent || w.writer.pc == Failed) && Loaded(w.device, w.writer)))
  }

  /** The acknowledgement of this effect is on the way out, out, or lost with the effect. */
  ghost predicate Recorded(d: Device, w: Writer, e: Effect) {
    match d.phase
    case Applied(x) =>
      && x == e && d.ack == Ack(e.sequence, e.status)
      && d.durable.effects == [] && d.shown == d.durable.ack && d.shown.sequence != w.sequence
    case Journalled =>
      && d.ack == Ack(e.sequence, e.status) && d.durable.ack == d.ack && d.durable.effects == [e]
      && d.shown.sequence != w.sequence
    case Quiet =>
      && d.shown == d.ack && d.ack == d.durable.ack
      && ((d.durable.effects == [e] && d.shown == Ack(e.sequence, e.status))
          || (d.durable.effects == [] && d.box.sequence == 0 && d.shown.sequence != w.sequence))
  }

  /** The one effect of this write has happened. */
  ghost predicate After(w: World) {
    && |w.applied| == 1
    && (w.writer.pc == SequenceSent || w.writer.pc == Succeeded || w.writer.pc == Failed)
    && OwnEffect(w.applied[0], w.writer)
    && (w.device.box.sequence == 0 || w.device.box.sequence == w.writer.sequence)
    && Recorded(w.device, w.writer, w.applied[0])
    && (w.writer.pc == Succeeded ==>
          && w.device.durable.effects == [w.applied[0]] && w.applied[0].status == APPLIED
          && w.device.phase == Quiet && w.device.shown.sequence == w.writer.sequence)
  }

  lemma PollIsOwn(w: World)
    requires Before(w) && Enabled(w, Poll)
    ensures After(Step(w, Poll))
  {
    EmptyPayloadIsRefused(w.device.control);
  }

  lemma StepBefore(w: World, e: Event)
    requires Before(w)
    ensures Before(Step(w, e)) || After(Step(w, e))
  {
    if e == Poll && Enabled(w, e) { PollIsOwn(w); }
  }

  lemma StepAfter(w: World, e: Event)
    requires After(w)
    ensures After(Step(w, e))
  {
  }

  lemma {:induction false} RunKeeps(w: World, events: seq<Event>)
    requires Before(w) || After(w)
    ensures Before(Run(w, events)) || After(Run(w, events))
    decreases |events|
  {
    if events != [] {
      if Before(w) { StepBefore(w, events[0]); } else { StepAfter(w, events[0]); }
      RunKeeps(Step(w, events[0]), events[1..]);
    }
  }

  lemma {:induction false} WriterKeepsItsCommand(w: World, events: seq<Event>)
    ensures Run(w, events).writer.operation == w.writer.operation && Run(w, events).writer.raw == w.writer.raw
    decreases |events|
  {
    if events != [] { WriterKeepsItsCommand(Step(w, events[0]), events[1..]); }
  }

  /** From a quiescent mailbox, under every interleaving of polls, journal commits, reboots and
      writer steps: the device acts at most once, under this writer's number, with exactly its
      operation and value or by refusing an empty payload; a writer that succeeded left a durable,
      applied effect of exactly its command and a mailbox at rest and quiescent again; and only a
      writer whose sequence frame is out, waiting or given up, leaves it otherwise. */
  lemma AppliedAtMostOnce(w: World, events: seq<Event>)
    requires Starting(w) && Quiescent(w.device)
    ensures var n := Run(w, events);
            && |n.applied| <= 1
            && (forall e | e in n.applied :: OwnEffect(e, n.writer))
            && (forall e | e in n.device.durable.effects :: e in n.applied)
            && n.writer.operation == w.writer.operation && n.writer.raw == w.writer.raw
            && (n.writer.pc == Succeeded ==>
                  && n.device.durable.effects == [Effect(n.writer.sequence, w.writer.operation, w.writer.raw, APPLIED, true)]
                  && AtRest(n.device) && Quiescent(n.device))
            && (!Quiescent(n.device) ==>
                  && (n.writer.pc == SequenceSent || n.writer.pc == Failed)
                  && n.device.box.sequence == n.writer.sequence)
  {
    RunKeeps(w, events);
    WriterKeepsItsCommand(w, events);
  }

  // ----- one write after another -----

  /** A command for this mailbox, and everything that happens until the next one. */
  datatype Request = Request(operation: nat, raw: nat, events: seq<Event>)

  /** The next writer connects; bookkeeping of earlier writes starts afresh. */
  function Connected(d: Device, r: Request): World {
    World(d.(box := d.box.(ours := false), durable := d.durable.(effects := [])),
          Writer(r.operation, r.raw, 0, Connecting), [])
  }

  /** How the last of these writes ends. */
  function Outcome(d: Device, requests: seq<Request>): World
    requires requests != []
    decreases |requests|, 0
  {
    var last := requests[|requests| - 1];
    Run(Connected(DeviceAfter(d, requests[..|requests| - 1]), last), last.events)
  }

  function DeviceAfter(d: Device, requests: seq<Request>): Device
    decreases |requests|, 1
  {
    if requests == [] then d else Outcome(d, requests).device
  }

  /** Every one of these writes succeeded before the next began. */
  predicate AllSucceed(d: Device, requests: seq<Request>)
    decreases |requests|
  {
    requests == [] || (AllSucceed(d, requests[..|requests| - 1]) && Outcome(d, requests).writer.pc == Succeeded)
  }

  lemma {:induction false} SuccessesLeaveItQuiescent(d: Device, requests: seq<Request>)
    requires AtRest(d) && Quiescent(d) && AllSucceed(d, requests)
    ensures AtRest(DeviceAfter(d, requests)) && Quiescent(DeviceAfter(d, requests))
    decreases |requests|
  {
    if requests != [] {
      var front, last := requests[..|requests| - 1], requests[|requests| - 1];
      SuccessesLeaveItQuiescent(d, front);
      AppliedAtMostOnce(Connected(DeviceAfter(d, front), last), last.events);
    }
  }

  /** However many writes went before, as long as each succeeded: the next is applied at most once,
      as itself or as a refused empty payload, and its success leaves exactly its own effect. */
  lemma ConsecutiveWritesApplyOnce(d: Device, requests: seq<Request>)
    requires AtRest(d) && Quiescent(d) && requests != [] && AllSucceed(d, requests[..|requests| - 1])
    ensures var n := Outcome(d, requests);
            var last := requests[|requests| - 1];
            && |n.applied| <= 1
            && (forall e | e in n.applied :: OwnEffect(e, n.writer))
            && n.writer.operation == last.operation && n.writer.raw == last.raw
            && (n.writer.pc == Succeeded ==>
                  && n.device.durable.effects == [Effect(n.writer.sequence, last.operation, last.raw, APPLIED, true)]
                  && AtRest(n.device) && Quiescent(n.device))
  {
    var front, last := requests[..|requests| - 1], requests[|requests| - 1];
    SuccessesLeaveItQuiescent(d, front);
    AppliedAtMostOnce(Connected(DeviceAfter(d, front), last), last.events);
  }

  /** A writer that gives up after its sequence frame leaves a command waiting: the state from which
      the next writer's payload can be misused. */
  lemma GivingUpLeavesItPending(w: World)
    requires Starting(w) && Quiescent(w.device)
    ensures var n := Run(w, [ReadAck(0), WritePayload, WriteSequence, GiveUp]);
            && n.writer.pc == Failed && AtRest(n.device) && !Quiescent(n.device)
            && n.device.box.sequence == n.writer.sequence
  {
    RunFour(w, ReadAck(0), WritePayload, WriteSequence, GiveUp);
  }

  // ----- and only from a quiescent mailbox -----

  /** This writer's payload was applied under a number it did not choose. */
  ghost predicate Misattributed(w: World) {
    exists e :: e in w.applied && e.ours && e.sequence != w.writer.sequence
  }

  /** A draw that avoids the number still waiting in the mailbox. */
  function AvoidingDraw(d: Device): (draw: nat)
    ensures draw < REGISTER_MAX && ChooseSequence(d.shown.sequence, draw) != d.box.sequence
  {
    if ChooseSequence(d.shown.sequence, 0) != d.box.sequence then 0
    else if ChooseSequence(d.shown.sequence, 1) != d.box.sequence then 1 else 2
  }

  lemma RunFour(w: World, a: Event, b: Event, c: Event, d: Event)
    ensures Run(w, [a, b, c, d]) == Step(Step(Step(Step(w, a), b), c), d)
  {
    assert [a, b, c, d][1..] == [b, c, d] && [b, c, d][1..] == [c, d] && [c, d][1..] == [d];
    assert Run(w, [a, b, c, d]) == Run(Step(w, a), [b, c, d]);
    assert Run(Step(w, a), [b, c, d]) == Run(Step(Step(w, a), b), [c, d]);
    assert Run(Step(Step(w, a), b), [c, d]) == Run(Step(Step(Step(w, a), b), c), [d]);
    assert [d][1..] == [];
    assert Run(Step(Step(Step(w, a), b), c), [d]) == Run(Step(Step(Step(Step(w, a), b), c), d), []);
  }

  lemma {:induction false} RunAppends(w: World, first: seq<Event>, rest: seq<Event>)
    ensures Run(w, first + rest) == Run(Run(w, first), rest)
    decreases |first|
  {
    if first == [] {
      assert first + rest == rest;
    } else {
      RunAppends(Step(w, first[0]), first[1..], rest);
      assert (first + rest)[1..] == first[1..] + rest;
    }
  }

  /** A command still waiting makes the device fire on this writer's payload: once under the old
      number, and a second time when the new number arrives. */
  lemma PendingCommandAppliesTwice(w: World)
    requires Starting(w) && !Quiescent(w.device)
    ensures var draw := AvoidingDraw(w.device);
            var n := Run(w, [ReadAck(draw), WritePayload, Poll, Journal] + [Show, WriteSequence, Poll, Journal]);
            && Misattributed(n) && |n.applied| == 2
            && Intact(n.applied[0], n.writer) && Intact(n.applied[1], n.writer)
  {
    var draw := AvoidingDraw(w.device);
    RunAppends(w, [ReadAck(draw), WritePayload, Poll, Journal], [Show, WriteSequence, Poll, Journal]);
    RunFour(w, ReadAck(draw), WritePayload, Poll, Journal);
    var m := Run(w, [ReadAck(draw), WritePayload, Poll, Journal]);
    RunFour(m, Show, WriteSequence, Poll, Journal);
    FirstHalf(w, draw);
    SecondHalf(w, m);
  }

  predicate FiredEarly(w: World, m: World) {
    && m.device.phase == Journalled && m.writer.pc == PayloadSent && |m.applied| == 1
    && m.writer.operation == w.writer.operation && m.writer.raw == w.writer.raw
    && m.writer.sequence != 0 && m.writer.sequence != w.device.box.sequence
    && m.applied[0].sequence == w.device.box.sequence && Intact(m.applied[0], m.writer)
    && m.device.box == Box(w.device.box.sequence, w.writer.operation, w.writer.raw, true)
    && m.device.ack.sequence == w.device.box.sequence
  }

  lemma FirstHalf(w: World, draw: nat)
    requires Starting(w) && !Quiescent(w.device) && draw == AvoidingDraw(w.device)
    ensures FiredEarly(w, Step(Step(Step(Step(w, ReadAck(draw)), WritePayload), Poll), Journal))
  {
    var a := Step(w, ReadAck(draw));
    assert a.writer.sequence == ChooseSequence(w.device.shown.sequence, draw);
    var b := Step(a, WritePayload);
    var c := Step(b, Poll);
    assert c.device.phase.Applied? && c.applied == [c.device.phase.effect];
  }

  lemma SecondHalf(w: World, m: World)
    requires FiredEarly(w, m)
    ensures var n := Step(Step(Step(Step(m, Show), WriteSequence), Poll), Journal);
            && n.writer == m.writer.(pc := SequenceSent)
            && |n.applied| == 2 && n.applied[0] == m.applied[0] && Intact(n.applied[1], n.writer)
            && n.applied[1].sequence == m.writer.sequence
            && Misattributed(n)
  {
    var b := Step(Step(m, Show), WriteSequence);
    var n := Step(Step(b, Poll), Journal);
    assert n.applied[0] in n.applied;
  }

  /** Quiescence is exactly the condition: with it no schedule misuses the payload, without it
      some schedule does. */
  lemma QuiescenceIsExact(w: World)
    requires Starting(w)
    ensures Quiescent(w.device) <==> forall events :: !Misattributed(Run(w, events))
  {
    if Quiescent(w.device) {
      forall events ensures !Misattributed(Run(w, events)) {
        AppliedAtMostOnce(w, events);
      }
    } else {
      PendingCommandAppliesTwice(w);
    }
  }

  // ----- what a write comes to -----

  /** From a quiescent mailbox, whenever the writer reads its own number back, it succeeds exactly if the
      device durably applied its operation and value with status one, and fails otherwise. */
  lemma AnsweredAsApplied(w: World, events: seq<Event>)
    requires Starting(w) && Quiescent(w.device) && Enabled(Run(w, events), AwaitAck)
    ensures var n := Run(w, events);
            var m := Step(n, AwaitAck);
            && m.device == n.device
            && (m.writer.pc == Succeeded <==>
                  n.device.durable.effects == [Effect(n.writer.sequence, w.writer.operation, w.writer.raw, 1, true)])
            && (m.writer.pc != Succeeded ==> m.writer.pc == Failed)
  {
    RunKeeps(w, events);
    WriterKeepsItsCommand(w, events);
    assert After(Run(w, events));
    StepAfter(Run(w, events), AwaitAck);
  }

  /** A write that nothing comes between. */
  function Undisturbed(draw: nat): seq<Event> {
    [ReadAck(draw), WritePayload, WriteSequence, Poll] + [Journal, Show, AwaitAck]
  }

  /** The write has been carried out: its command applied once to the control and journalled, its status
      shown under its number, and the writer told whether it was one. */
  predicate CarriedOut(w: World, n: World) {
    var (control, status) := Apply(w.device.control, w.writer.operation, w.writer.raw);
    && n.device.control == n.device.durable.control == control
    && n.applied == n.device.durable.effects
    && n.applied == [Effect(n.writer.sequence, w.writer.operation, w.writer.raw, status, true)]
    && n.device.shown == Ack(n.writer.sequence, status)
    && n.writer.pc == (if status == 1 then Succeeded else Failed)
    && AtRest(n.device) && Quiescent(n.device)
  }

  lemma UndisturbedWriteIsCarriedOut(w: World, draw: nat)
    requires Starting(w) && Quiescent(w.device) && draw < REGISTER_MAX
    ensures CarriedOut(w, Run(w, Undisturbed(draw)))
  {
    RunAppends(w, [ReadAck(draw), WritePayload, WriteSequence, Poll], [Journal, Show, AwaitAck]);
    RunFour(w, ReadAck(draw), WritePayload, WriteSequence, Poll);
    var m := Run(w, [ReadAck(draw), WritePayload, WriteSequence, Poll]);
    RunThree(m, Journal, Show, AwaitAck);
    FirstFour(w, draw);
    LastFour(w, m);
  }

  lemma RunThree(w: World, a: Event, b: Event, c: Event)
    ensures Run(w, [a, b, c]) == Step(Step(Step(w, a), b), c)
  {
    assert [a, b, c][1..] == [b, c] && [b, c][1..] == [c] && [c][1..] == [];
    assert Run(w, [a, b, c]) == Run(Step(w, a), [b, c]);
    assert Run(Step(w, a), [b, c]) == Run(Step(Step(w, a), b), [c]);
    assert Run(Step(Step(w, a), b), [c]) == Run(Step(Step(Step(w, a), b), c), []);
  }

  predicate Polled(w: World, m: World) {
    var (control, status) := Apply(w.device.control, w.writer.operation, w.writer.raw);
    && m.writer == w.writer.(sequence := m.writer.sequence, pc := SequenceSent)
    && m.device.box.sequence == m.writer.sequence && m.device.control == control && m.device.ack == Ack(m.writer.sequence, status)
    && m.device.phase == Applied(Effect(m.writer.sequence, w.writer.operation, w.writer.raw, status, true))
    && m.applied == [m.device.phase.effect] && m.device.durable.effects == []
  }

  lemma FirstFour(w: World, draw: nat)
    requires Starting(w) && Quiescent(w.device) && draw < REGISTER_MAX
    ensures Polled(w, Step(Step(Step(Step(w, ReadAck(draw)), WritePayload), WriteSequence), Poll))
  {
    var a := Step(w, ReadAck(draw));
    assert a.writer.sequence == ChooseSequence(w.device.shown.sequence, draw);
    var c := Step(Step(a, WritePayload), WriteSequence);
    assert c.device.box == Box(a.writer.sequence, w.writer.operation, w.writer.raw, true);
  }

  lemma LastFour(w: World, m: World)
    requires Polled(w, m)
    ensures CarriedOut(w, Step(Step(Step(m, Journal), Show), AwaitAck))
  {
    var b := Step(Step(m, Journal), Show);
    assert b.device.shown == m.device.ack && b.device.phase == Quiet;
  }

  /** What these commands make of a control, one after another. */
  function ApplyEach(c: Control, requests: seq<Request>): Control
    decreases |requests|
  {
    if requests == [] then c
    else
      var last := requests[|requests| - 1];
      Apply(ApplyEach(c, requests[..|requests| - 1]), last.operation, last.raw).0
  }

  ghost predicate IsUndisturbed(r: Request) {
    exists draw: nat :: draw < REGISTER_MAX && r.events == Undisturbed(draw)
  }

  /** A series of writes that nothing comes between, refused ones among them, leaves the control as their
      commands one after another make it, and the mailbox as they found it. */
  lemma {:induction false} UndisturbedWritesApplyInOrder(d: Device, requests: seq<Request>)
    requires AtRest(d) && Quiescent(d)
    requires forall r | r in requests :: IsUndisturbed(r)
    ensures AtRest(DeviceAfter(d, requests)) && Quiescent(DeviceAfter(d, requests))
    ensures DeviceAfter(d, requests).control == ApplyEach(d.control, requests)
    decreases |requests|
  {
    if requests != [] {
      var front, last := requests[..|requests| - 1], requests[|requests| - 1];
      assert last in requests && forall r | r in front :: r in requests;
      UndisturbedWritesApplyInOrder(d, front);
      var draw: nat :| draw < REGISTER_MAX && last.events == Undisturbed(draw);
      UndisturbedWriteIsCarriedOut(Connected(DeviceAfter(d, front), last), draw);
    }
  }

  // ----- the control and the journal -----

  function Replayed(c: Control, effects: seq<Effect>): Control
    decreases |effects|
  {
    if effects == [] then c
    else
      var last := effects[|effects| - 1];
      Apply(Replayed(c, effects[..|effects| - 1]), last.operation, last.value).0
  }

  /** The durable control is what the journalled effects make of `start`, and the live control is the
      durable one, but for the one effect not yet journalled. */
  ghost predicate Accounted(start: Control, d: Device) {
    && d.durable.control == Replayed(start, d.durable.effects)
    && match d.phase
       case Applied(e) => (d.control, e.status) == Apply(d.durable.control, e.operation, e.value)
       case _ => d.control == d.durable.control
  }

  lemma StepAccounts(start: Control, w: World, e: Event)
    requires Accounted(start, w.device) && !e.Evolve?
    ensures Accounted(start, Step(w, e).device)
  {
    if e == Journal && Enabled(w, e) {
      var effects := w.device.durable.effects + [w.device.phase.effect];
      assert effects[..|effects| - 1] == w.device.durable.effects;
    }
  }

  /** Whatever the mailbox held and wherever reboots come: while nothing else moves the equipment, its
      control is what the journalled effects make of it, one after another, and a reboot loses at most
      the one effect that was not journalled. */
  lemma {:induction false} ControlIsAccounted(start: Control, w: World, events: seq<Event>)
    requires Accounted(start, w.device) && forall e | e in events :: !e.Evolve?
    ensures Accounted(start, Run(w, events).device)
    ensures Step(Run(w, events), Reboot).device.control == Replayed(start, Run(w, events).device.durable.effects)
    decreases |events|
  {
    if events != [] {
      StepAccounts(start, w, events[0]);
      ControlIsAccounted(start, Step(w, events[0]), events[1..]);
    }
  }
}
