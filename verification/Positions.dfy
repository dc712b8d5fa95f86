/** Source positions: producers fence each other through durable epochs, and a consumer accepts
    only what moves its durable high-water mark forward. */
module Positions {
  import opened Common

  datatype Position = Position(producer: string, epoch: nat, sequence: nat)

  /** `sequences` holds the last sequence issued in the current epoch of each producer and node. */
  datatype Tables = Tables(epochs: map<string, nat>, sequences: map<(string, string), nat>)

  function LastEpoch(t: Tables, producer: string): nat {
    if producer in t.epochs then t.epochs[producer] else 0
  }

  function LastSequence(t: Tables, producer: string, node: string): nat {
    if (producer, node) in t.sequences then t.sequences[(producer, node)] else 0
  }

  function Begin(t: Tables, producer: string): Tables {
    Tables(t.epochs[producer := LastEpoch(t, producer) + 1],
           map k | k in t.sequences && k.0 != producer :: t.sequences[k])
  }

  /** An instance may issue only while the newest epoch is its own. */
  predicate Unfenced(t: Tables, producer: string, epoch: nat, expected: Option<nat>) {
    producer in t.epochs && t.epochs[producer] == epoch && (expected.Some? ==> expected.value == epoch)
  }

  function Identity(producer: string, node: string): string {
    producer + "/" + node
  }

  function Issue(t: Tables, producer: string, node: string, epoch: nat): (Tables, Position) {
    var sequence := LastSequence(t, producer, node) + 1;
    (t.(sequences := t.sequences[(producer, node) := sequence]), Position(Identity(producer, node), epoch, sequence))
  }

  datatype Mark = Mark(position: Position, binding: string)

  datatype Verdict = Accepted | ProducerConflict | OldEpoch | OutOfOrder | Duplicate | PositionConflict

  function Judge(marks: map<string, Mark>, topic: string, position: Position, binding: string): Verdict {
    if topic !in marks then Accepted
    else
      var last := marks[topic];
      if last.position.producer != position.producer then ProducerConflict
      else if position.epoch < last.position.epoch then OldEpoch
      else if position.epoch > last.position.epoch then Accepted
      else if position.sequence < last.position.sequence then OutOfOrder
      else if position.sequence > last.position.sequence then Accepted
      else if last.binding == binding then Duplicate else PositionConflict
  }

  function Advanced(marks: map<string, Mark>, topic: string, position: Position, binding: string): map<string, Mark> {
    if Judge(marks, topic, position, binding) == Accepted then marks[topic := Mark(position, binding)] else marks
  }

  /** The database file that several producer instances may have open. */
  class PositionDatabase {
    var epochs: map<string, nat>
    var sequences: map<(string, string), nat>

    ghost function Contents(): Tables
      reads this
    {
      Tables(epochs, sequences)
    }

    constructor ()
      ensures Contents() == Tables(map[], map[])
    {
      epochs, sequences := map[], map[];
    }
  }

  class ProducerPositions {
    const db: PositionDatabase
    const producer: string
    var epoch: nat

    constructor (db: PositionDatabase, producer: string)
      requires producer != ""
      ensures this.db == db && this.producer == producer && epoch == 0
    {
      this.db, this.producer, epoch := db, producer, 0;
    }

    method BeginEpoch() returns (e: nat)
      modifies this, db
      ensures db.Contents() == Begin(old(db.Contents()), producer)
      ensures e == epoch == LastEpoch(old(db.Contents()), producer) + 1
      ensures producer in db.epochs && db.epochs[producer] == e
      ensures forall k :: k in db.sequences <==> k in old(db.sequences) && k.0 != producer
    {
      epoch := if producer in db.epochs then db.epochs[producer] + 1 else 1;
      db.epochs := db.epochs[producer := epoch];
      db.sequences := map k | k in db.sequences && k.0 != producer :: db.sequences[k];
      e := epoch;
    }

    method Next(node: string, expected: Option<nat>) returns (r: Result<Position>)
      modifies db
      ensures r.Success? <==> Unfenced(old(db.Contents()), producer, epoch, expected)
      ensures r.Success? ==> (db.Contents(), r.value) == Issue(old(db.Contents()), producer, node, epoch)
      ensures r.Success? ==>
        && r.value.producer == producer + "/" + node && r.value.epoch == epoch
        && r.value.sequence == (if (producer, node) in old(db.sequences) then old(db.sequences)[(producer, node)] + 1 else 1)
        && (producer, node) in db.sequences && db.sequences[(producer, node)] == r.value.sequence
      ensures r.Failure? ==> db.Contents() == old(db.Contents())
    {
      if producer !in db.epochs || db.epochs[producer] != epoch || (expected.Some? && expected.value != epoch) {
        return Failure("producer generation fenced");
      }
      var sequence := 1;
      if (producer, node) in db.sequences {
        sequence := db.sequences[(producer, node)] + 1;
      }
      db.sequences := db.sequences[(producer, node) := sequence];
      r := Success(Position(producer + "/" + node, epoch, sequence));
    }
  }

  class PositionGuard {
    var marks: map<string, Mark>

    constructor ()
      ensures marks == map[]
    {
      marks := map[];
    }

    method Advance(topic: string, position: Position, binding: string) returns (verdict: Verdict)
      modifies this
      ensures verdict == Judge(old(marks), topic, position, binding)
      ensures marks == Advanced(old(marks), topic, position, binding)
      ensures verdict == Accepted <==>
        || topic !in old(marks)
        || (old(marks)[topic].position.producer == position.producer && Before(old(marks)[topic].position, position))
      ensures topic in old(marks) && old(marks)[topic].position == position ==>
        verdict == if old(marks)[topic].binding == binding then Duplicate else PositionConflict
      ensures verdict == ProducerConflict <==>
        topic in old(marks) && old(marks)[topic].position.producer != position.producer
      ensures verdict == OldEpoch <==>
        topic in old(marks) && old(marks)[topic].position.producer == position.producer
        && position.epoch < old(marks)[topic].position.epoch
      ensures marks == if verdict == Accepted then old(marks)[topic := Mark(position, binding)] else old(marks)
    {
      if topic in marks {
        var last := marks[topic];
        if last.position.producer != position.producer {
          return ProducerConflict;
        }
        if position.epoch < last.position.epoch {
          return OldEpoch;
        }
        if position.epoch == last.position.epoch {
          if position.sequence < last.position.sequence {
            return OutOfOrder;
          }
          if position.sequence == last.position.sequence {
            return if last.binding == binding then Duplicate else PositionConflict;
          }
        }
      }
      marks := marks[topic := Mark(position, binding)];
      verdict := Accepted;
    }
  }

  // ----- racing producers, an unreliable network and one consumer -----

  datatype Message = Message(topic: string, position: Position, binding: string)

  /** `instances` maps each process to the epoch it believes in; `issued` is in issue order. */
  datatype World = World(
    tables: Tables,
    instances: map<nat, nat>,
    issued: seq<Position>,
    network: set<Message>,
    marks: map<string, Mark>,
    accepted: seq<Message>)

  datatype Event =
    | Launch(instance: nat)
    | BeginEpoch(instance: nat)
    | Publish(instance: nat, node: string, expected: Option<nat>, topic: string, binding: string)
    | Lose(message: Message)
    | Arrive(message: Message)

  const INITIAL := World(Tables(map[], map[]), map[], [], {}, map[], [])

  function Step(producer: string, w: World, e: Event): World {
    match e
    case Launch(i) => w.(instances := w.instances[i := 0])
    case BeginEpoch(i) =>
      if i !in w.instances then w
      else w.(tables := Begin(w.tables, producer), instances := w.instances[i := LastEpoch(w.tables, producer) + 1])
    case Publish(i, node, expected, topic, binding) =>
      if i !in w.instances || !Unfenced(w.tables, producer, w.instances[i], expected) then w
      else
        var (tables, position) := Issue(w.tables, producer, node, w.instances[i]);
        w.(tables := tables, issued := w.issued + [position], network := w.network + {Message(topic, position, binding)})
    case Lose(m) => w.(network := w.network - {m})
    case Arrive(m) =>
      if m !in w.network || Judge(w.marks, m.topic, m.position, m.binding) != Accepted then w
      else w.(marks := Advanced(w.marks, m.topic, m.position, m.binding), accepted := w.accepted + [m])
  }

  predicate Before(a: Position, b: Position) {
    a.epoch < b.epoch || (a.epoch == b.epoch && a.sequence < b.sequence)
  }

  /** What was issued lies behind the durable counters, so whatever comes next lies ahead of it. */
  ghost predicate Behind(producer: string, w: World) {
    forall p | p in w.issued ::
      exists node :: p.producer == Identity(producer, node) && BehindCounters(producer, w.tables, node, p)
  }

  predicate BehindCounters(producer: string, t: Tables, node: string, p: Position) {
    p.epoch < LastEpoch(t, producer)
    || (p.epoch == LastEpoch(t, producer) && p.sequence <= LastSequence(t, producer, node))
  }

  ghost predicate IssuedInOrder(w: World) {
    forall i, j | 0 <= i < j < |w.issued| && w.issued[i].producer == w.issued[j].producer ::
      Before(w.issued[i], w.issued[j])
  }

  ghost predicate AcceptedInOrder(w: World) {
    forall i, j | 0 <= i < j < |w.accepted| && w.accepted[i].topic == w.accepted[j].topic ::
      w.accepted[i].position.producer == w.accepted[j].position.producer
      && Before(w.accepted[i].position, w.accepted[j].position)
  }

  ghost predicate MarksAreLatest(w: World) {
    forall m | m in w.accepted ::
      && m.topic in w.marks && w.marks[m.topic].position.producer == m.position.producer
      && (m.position == w.marks[m.topic].position || Before(m.position, w.marks[m.topic].position))
  }

  ghost predicate Inv(producer: string, w: World) {
    && Behind(producer, w)
    && IssuedInOrder(w)
    && (forall i | i in w.instances :: w.instances[i] <= LastEpoch(w.tables, producer))
    && (forall m | m in w.network :: m.position in w.issued)
    && (forall m | m in w.accepted :: m.position in w.issued)
    && AcceptedInOrder(w)
    && MarksAreLatest(w)
  }

  lemma IdentityIsInjective(producer: string, a: string, b: string)
    requires Identity(producer, a) == Identity(producer, b)
    ensures a == b
  {
    assert a == Identity(producer, a)[|producer| + 1..];
    assert b == Identity(producer, b)[|producer| + 1..];
  }

  lemma BeginKeepsInv(producer: string, w: World, i: nat)
    requires Inv(producer, w)
    ensures Inv(producer, Step(producer, w, BeginEpoch(i)))
  {
    var n := Step(producer, w, BeginEpoch(i));
    forall p | p in n.issued
      ensures exists node :: p.producer == Identity(producer, node) && BehindCounters(producer, n.tables, node, p)
    {
      var node :| p.producer == Identity(producer, node) && BehindCounters(producer, w.tables, node, p);
      assert BehindCounters(producer, n.tables, node, p);
    }
  }

  lemma PublishKeepsInv(producer: string, w: World, e: Event)
    requires Inv(producer, w) && e.Publish?
    ensures Inv(producer, Step(producer, w, e))
  {
    var n := Step(producer, w, e);
    if n != w {
      var position := Issue(w.tables, producer, e.node, w.instances[e.instance]).1;
      forall p | p in w.issued
        ensures exists node :: p.producer == Identity(producer, node) && BehindCounters(producer, n.tables, node, p)
        ensures p.producer == position.producer ==> Before(p, position)
      {
        var node :| p.producer == Identity(producer, node) && BehindCounters(producer, w.tables, node, p);
        if p.producer == position.producer { IdentityIsInjective(producer, node, e.node); }
        assert BehindCounters(producer, n.tables, node, p);
      }
      assert BehindCounters(producer, n.tables, e.node, position);
    }
  }

  lemma ArriveKeepsInv(producer: string, w: World, m: Message)
    requires Inv(producer, w)
    ensures Inv(producer, Step(producer, w, Arrive(m)))
  {
    var n := Step(producer, w, Arrive(m));
    if n != w {
      forall i | 0 <= i < |w.accepted| && w.accepted[i].topic == m.topic
        ensures w.accepted[i].position.producer == m.position.producer && Before(w.accepted[i].position, m.position)
      {
        assert w.accepted[i] in w.accepted;
      }
    }
  }

  lemma StepKeepsInv(producer: string, w: World, e: Event)
    requires Inv(producer, w)
    ensures Inv(producer, Step(producer, w, e))
  {
    match e
    case Launch(_) =>
    case BeginEpoch(i) => BeginKeepsInv(producer, w, i);
    case Publish(_, _, _, _, _) => PublishKeepsInv(producer, w, e);
    case Lose(_) =>
    case Arrive(m) => ArriveKeepsInv(producer, w, m);
  }

  function Run(producer: string, events: seq<Event>): World {
    if events == [] then INITIAL
    else Step(producer, Run(producer, events[..|events| - 1]), events[|events| - 1])
  }

  lemma {:induction false} RunKeepsInv(producer: string, events: seq<Event>)
    ensures Inv(producer, Run(producer, events))
  {
    if events != [] {
      RunKeepsInv(producer, events[..|events| - 1]);
      StepKeepsInv(producer, Run(producer, events[..|events| - 1]), events[|events| - 1]);
    }
  }

  /** Whatever the races, restarts and network do, each topic accepts positions of one producer
      only, strictly forward, never one twice, in the order in which they were issued. */
  lemma AcceptsInIssueOrder(producer: string, events: seq<Event>, i: nat, j: nat)
    requires i < j < |Run(producer, events).accepted|
    requires Run(producer, events).accepted[i].topic == Run(producer, events).accepted[j].topic
    ensures var w := Run(producer, events);
            var a, b := w.accepted[i].position, w.accepted[j].position;
            && a.producer == b.producer && Before(a, b)
            && a in w.issued && b in w.issued
            && forall x, y | 0 <= x < |w.issued| && 0 <= y < |w.issued| && w.issued[x] == a && w.issued[y] == b :: x < y
  {
    var w := Run(producer, events);
    RunKeepsInv(producer, events);
    assert w.accepted[i] in w.accepted && w.accepted[j] in w.accepted;
  }

  /** The fence: once another instance has begun an epoch, this one can issue nothing. */
  lemma SupersededIsFenced(producer: string, events: seq<Event>, older: nat, newer: nat, expected: Option<nat>)
    requires older != newer && older in Run(producer, events).instances && newer in Run(producer, events).instances
    ensures var w := Step(producer, Run(producer, events), BeginEpoch(newer));
            !Unfenced(w.tables, producer, w.instances[older], expected)
  {
    RunKeepsInv(producer, events);
  }

  // ----- and whatever is issued and arrives in time is accepted -----

  /** Every mark is that of an accepted message. */
  ghost predicate MarksWereAccepted(w: World) {
    forall t | t in w.marks ::
      exists m :: m in w.accepted && m.topic == t && m.position == w.marks[t].position && m.binding == w.marks[t].binding
  }

  lemma StepKeepsMarks(producer: string, w: World, e: Event)
    requires MarksWereAccepted(w)
    ensures MarksWereAccepted(Step(producer, w, e))
  {
    var n := Step(producer, w, e);
    assert forall m | m in w.accepted :: m in n.accepted;
    if n.marks != w.marks {
      assert n.accepted[|w.accepted|] == e.message;
    }
  }

  lemma {:induction false} RunKeepsMarks(producer: string, events: seq<Event>)
    ensures MarksWereAccepted(Run(producer, events))
  {
    if events != [] {
      RunKeepsMarks(producer, events[..|events| - 1]);
      StepKeepsMarks(producer, Run(producer, events[..|events| - 1]), events[|events| - 1]);
    }
  }

  /** What an instance issues in its own newest epoch lies ahead of every mark of its identity. */
  lemma IssuedLiesAhead(producer: string, w: World, e: Event, topic: string)
    requires Inv(producer, w) && MarksWereAccepted(w) && topic in w.marks
    requires e.Publish? && e.instance in w.instances && Unfenced(w.tables, producer, w.instances[e.instance], e.expected)
    requires w.marks[topic].position.producer == Identity(producer, e.node)
    ensures Before(w.marks[topic].position, Issue(w.tables, producer, e.node, w.instances[e.instance]).1)
  {
    var p := w.marks[topic].position;
    var node :| p.producer == Identity(producer, node) && BehindCounters(producer, w.tables, node, p);
    IdentityIsInjective(producer, node, e.node);
  }

  /** In every run an instance whose epoch is the newest can issue, and its position, the next in its
      sequence, is accepted at once on any topic that no other identity has used. */
  lemma FreshPositionsAreAccepted(producer: string, events: seq<Event>, e: Event, w: World, m: Message)
    requires w == Run(producer, events) && e.Publish? && e.instance in w.instances
    requires producer in w.tables.epochs && w.instances[e.instance] == w.tables.epochs[producer]
    requires e.expected == None || e.expected == Some(w.instances[e.instance])
    requires e.topic in w.marks ==> w.marks[e.topic].position.producer == producer + "/" + e.node
    requires m == Message(e.topic,
                          Position(producer + "/" + e.node, w.instances[e.instance],
                                   LastSequence(w.tables, producer, e.node) + 1),
                          e.binding)
    ensures var n := Step(producer, Step(producer, w, e), Arrive(m));
            && n.issued == w.issued + [m.position] && n.accepted == w.accepted + [m]
            && n.marks == w.marks[e.topic := Mark(m.position, e.binding)]
  {
    RunKeepsInv(producer, events);
    RunKeepsMarks(producer, events);
    if e.topic in w.marks {
      IssuedLiesAhead(producer, w, e, e.topic);
    }
  }
}
