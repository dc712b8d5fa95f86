/** The device's durable outbox: inspections in serial order, each retained until its receipt
    arrives, together with the simulator state committed in the same transaction. */
module SourceJournal {
  import opened Common
  import opened InspectionCodec

  datatype Entry = Entry(event: Inspection, created: Time, received: bool)

  /** Rows keyed by serial; serials are never reused, and `created` and `received` count for ever. */
  datatype Tables<+S> = Tables(entries: map<nat, Entry>, next: nat, created: nat, received: nat, state: Option<S>)

  predicate Holds<S>(t: Tables<S>, id: InspectionId) {
    exists k :: k in t.entries && t.entries[k].event.id == id
  }

  /** No two rows share an identity, and serials lie below the next one. */
  ghost predicate Keyed<S>(t: Tables<S>) {
    && (forall k | k in t.entries :: k < t.next)
    && (forall j, k | j in t.entries && k in t.entries && t.entries[j].event.id == t.entries[k].event.id :: j == k)
  }

  function Unreceived<S>(t: Tables<S>): set<nat> {
    set k | k in t.entries && !t.entries[k].received
  }

  /** Nothing leaves the outbox unaccounted for. */
  ghost predicate Conserved<S>(t: Tables<S>) {
    t.created == t.received + |Unreceived(t)|
  }

  predicate Stale(e: Entry, now: Time) {
    e.received && e.created < now - DAY
  }

  function Swept(entries: map<nat, Entry>, now: Time): map<nat, Entry> {
    map k | k in entries && !Stale(entries[k], now) :: entries[k]
  }

  function Appended<S>(t: Tables<S>, event: Inspection, now: Time): Tables<S> {
    t.(entries := t.entries[t.next := Entry(event, now, false)], next := t.next + 1, created := t.created + 1)
  }

  predicate Conflicts<S>(t: Tables<S>, event: Inspection) {
    exists k :: k in t.entries && t.entries[k].event.id == event.id && t.entries[k].event != event
  }

  /** The commit is refused, changing nothing, for a reused identity or a full outbox. */
  function CommitTables<S>(t: Tables<S>, state: S, event: Option<Inspection>, now: Time, capacity: nat): Result<Tables<S>> {
    if event.Some? && Conflicts(t, event.value) then Failure("immutable source event identity conflict")
    else if event.Some? && !Holds(t, event.value.id) && |Unreceived(t)| >= capacity
    then Failure("source outbox capacity reached")
    else
      var u := if event.Some? && !Holds(t, event.value.id) then Appended(t, event.value, now) else t;
      Success(u.(entries := Swept(u.entries, now), state := Some(state)))
  }

  /** The rows a receipt for this identity would newly mark. */
  function Marks<S>(t: Tables<S>, id: InspectionId): set<nat> {
    set k | k in Unreceived(t) && t.entries[k].event.id == id
  }

  function AckTables<S>(t: Tables<S>, id: InspectionId): Tables<S> {
    var marked := Marks(t, id);
    t.(entries := map k | k in t.entries :: if k in marked then t.entries[k].(received := true) else t.entries[k],
       received := t.received + |marked|)
  }

  function Head<S>(t: Tables<S>): Option<Inspection> {
    if Unreceived(t) == {} then None
    else
      LeastExists(Unreceived(t));
      var k :| k in Unreceived(t) && forall j | j in Unreceived(t) :: k <= j;
      Some(t.entries[k].event)
  }

  lemma LeastExists(s: set<nat>)
    requires s != {}
    ensures exists k :: k in s && forall j | j in s :: k <= j
  {
    var k := Least(s);
  }

  lemma {:induction false} Least(s: set<nat>) returns (k: nat)
    requires s != {}
    ensures k in s && forall j | j in s :: k <= j
  {
    var x :| x in s;
    k := x;
    if s != {x} {
      var m := Least(s - {x});
      k := if x < m then x else m;
      forall j | j in s ensures k <= j {
        if j != x { assert j in s - {x}; }
      }
    }
  }

  /** A receipt touches at most the one row of its identity, and only once. */
  lemma AckMarksOneRow<S>(t: Tables<S>, id: InspectionId)
    requires Keyed(t)
    ensures !Holds(t, id) ==> AckTables(t, id) == t
    ensures forall k | k in t.entries && t.entries[k].event.id == id ::
      AckTables(t, id) == if t.entries[k].received then t
                          else t.(entries := t.entries[k := t.entries[k].(received := true)], received := t.received + 1)
  {
    if !Holds(t, id) { assert Marks(t, id) == {}; }
    forall k | k in t.entries && t.entries[k].event.id == id
      ensures Marks(t, id) == if t.entries[k].received then {} else {k}
    {
    }
  }

  /** On its own a receipt may overtake: order is kept by who sends receipts, not by the journal. */
  lemma AckAloneSkipsAhead<S>(t: Tables<S>, early: nat, late: nat)
    requires Keyed(t) && early in Unreceived(t) && late in Unreceived(t) && early < late
    ensures var n := AckTables(t, t.entries[late].event.id);
            n.entries[late].received && early in Unreceived(n)
  {
    assert Marks(t, t.entries[late].event.id) == {late};
  }

  lemma AppendConserves<S>(t: Tables<S>, event: Inspection, now: Time)
    requires Keyed(t) && Conserved(t) && !Holds(t, event.id)
    ensures var n := Appended(t, event, now); Keyed(n) && Conserved(n) && Unreceived(n) == Unreceived(t) + {t.next}
  {
    assert Unreceived(Appended(t, event, now)) == Unreceived(t) + {t.next};
  }

  lemma SweepConserves<S>(t: Tables<S>, now: Time, state: S)
    requires Keyed(t) && Conserved(t)
    ensures var n := t.(entries := Swept(t.entries, now), state := Some(state));
            Keyed(n) && Conserved(n) && Unreceived(n) == Unreceived(t)
  {
    assert Unreceived(t.(entries := Swept(t.entries, now), state := Some(state))) == Unreceived(t);
  }

  /** Every accepted commit keeps the books balanced and the outbox within its capacity, and
      disturbs no inspection still waiting. */
  lemma CommitConserves<S>(t: Tables<S>, state: S, event: Option<Inspection>, now: Time, capacity: nat)
    requires Keyed(t) && Conserved(t) && CommitTables(t, state, event, now, capacity).Success?
    ensures var n := CommitTables(t, state, event, now, capacity).value;
            && Keyed(n) && Conserved(n) && n.received == t.received
            && (|Unreceived(t)| <= capacity ==> |Unreceived(n)| <= capacity)
            && (forall k | k in Unreceived(t) :: k in n.entries && n.entries[k] == t.entries[k])
  {
    if event.Some? && !Holds(t, event.value.id) {
      AppendConserves(t, event.value, now);
      SweepConserves(Appended(t, event.value, now), now, state);
    } else {
      SweepConserves(t, now, state);
    }
  }

  /** A commit is refused exactly for an identity filed with other contents or, if the inspection is new,
      for want of room; otherwise it saves the state, files a new inspection under the next serial, and
      forgets exactly the received ones more than a day old. */
  lemma CommitIsExact<S>(t: Tables<S>, state: S, event: Option<Inspection>, now: Time, capacity: nat)
    requires Keyed(t)
    ensures var committed := CommitTables(t, state, event, now, capacity);
            var added := event.Some? && forall k | k in t.entries :: t.entries[k].event.id != event.value.id;
            && (committed.Failure? <==>
                  || (event.Some? && exists k :: k in t.entries && t.entries[k].event.id == event.value.id
                                                 && t.entries[k].event != event.value)
                  || (added && |Unreceived(t)| >= capacity))
            && (committed.Success? ==>
                  var n := committed.value;
                  && n.state == Some(state) && n.received == t.received
                  && n.next == (if added then t.next + 1 else t.next)
                  && n.created == (if added then t.created + 1 else t.created)
                  && (added ==> t.next in n.entries && n.entries[t.next] == Entry(event.value, now, false))
                  && (forall k | k in t.entries ::
                        && (k in n.entries <==> !t.entries[k].received || t.entries[k].created >= now - 86_400 * SECOND)
                        && (k in n.entries ==> n.entries[k] == t.entries[k]))
                  && (forall k | k in n.entries :: k in t.entries || (added && k == t.next)))
  {
  }

  lemma AckConserves<S>(t: Tables<S>, id: InspectionId)
    requires Keyed(t) && Conserved(t)
    ensures var n := AckTables(t, id);
            && Keyed(n) && Conserved(n)
            && n.created == t.created
            && Unreceived(n) == Unreceived(t) - Marks(t, id)
  {
    var n := AckTables(t, id);
    assert Unreceived(n) == Unreceived(t) - Marks(t, id);
  }

  class SourceJournal<S(==)> {
    const capacity: nat
    var entries: map<nat, Entry>
    var next: nat
    var created: nat
    var received: nat
    var state: Option<S>

    ghost function Contents(): Tables<S>
      reads this
    {
      Tables(entries, next, created, received, state)
    }

    ghost predicate Valid()
      reads this
    {
      && capacity > 0
      && Keyed(Contents()) && Conserved(Contents())
      && |Unreceived(Contents())| <= capacity
    }

    constructor (capacity: nat)
      requires capacity > 0
      ensures Valid() && Contents() == Tables(map[], 0, 0, 0, None) && this.capacity == capacity
    {
      this.capacity := capacity;
      entries, next, created, received, state := map[], 0, 0, 0, None;
      new;
      assert Unreceived(Contents()) == {};
    }

    method Pending() returns (n: nat)
      requires Valid()
      ensures n == |Unreceived(Contents())| && created == received + n
    {
      var waiting := set k | k in entries && !entries[k].received;
      assert waiting == Unreceived(Contents());
      n := |waiting|;
    }

    method Oldest() returns (head: Option<Inspection>)
      ensures head == Head(Contents())
    {
      var waiting := set k | k in entries && !entries[k].received;
      assert waiting == Unreceived(Contents());
      if waiting == {} {
        return None;
      }
      LeastExists(waiting);
      var k :| k in waiting && forall j | j in waiting :: k <= j;
      head := Some(entries[k].event);
    }

    method Commit(newState: S, event: Option<Inspection>, now: Time) returns (r: Result<()>)
      requires Valid()
      modifies this
      ensures Valid()
      ensures var after := CommitTables(old(Contents()), newState, event, now, capacity);
              && (r.Success? <==> after.Success?)
              && Contents() == if after.Success? then after.value else old(Contents())
    {
      ghost var was := Contents();
      if event.Some? {
        var id := event.value.id;
        if exists k | k in entries :: entries[k].event.id == id && entries[k].event != event.value {
          return Failure("immutable source event identity conflict");
        }
        if !exists k | k in entries :: entries[k].event.id == id {
          var waiting := Pending();
          if waiting >= capacity {
            return Failure("source outbox capacity reached");
          }
          entries := entries[next := Entry(event.value, now, false)];
          next := next + 1;
          created := created + 1;
        }
      }
      state := Some(newState);
      entries := map k | k in entries && !Stale(entries[k], now) :: entries[k];
      assert Contents() == CommitTables(was, newState, event, now, capacity).value;
      CommitConserves(was, newState, event, now, capacity);
      r := Success(());
    }

    method Ack(id: InspectionId) returns (known: bool)
      requires Valid()
      modifies this
      ensures Valid()
      ensures Contents() == AckTables(old(Contents()), id) && (known <==> Holds(old(Contents()), id))
    {
      ghost var was := Contents();
      AckConserves(was, id);
      AckMarksOneRow(was, id);
      known := exists k | k in entries :: entries[k].event.id == id;
      if known {
        var k :| k in entries && entries[k].event.id == id;
        if !entries[k].received {
          entries := entries[k := entries[k].(received := true)];
          received := received + 1;
        }
      }
    }
  }
}
