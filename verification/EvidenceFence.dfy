/** The journal of execution records one process keeps, and the fence check that decides whether a
    capture between two probes holds every record of the interval. */
module EvidenceFence {
  import opened Common

  datatype Row = Row(instance: string, number: nat, content: string)

  /** What a process holds: the last number drawn, the bounded in-memory records and, if it was
      given a directory, the journal file and the checkpoint file. */
  datatype Buffer = Buffer(
    instance: string,
    capacity: nat,
    durable: bool,
    last: nat,
    recent: seq<Row>,
    journal: seq<Row>,
    checkpoint: nat,
    overflow: bool)

  function Empty(instance: string, capacity: nat, durable: bool): Buffer {
    Buffer(instance, capacity, durable, 0, [], [], 0, false)
  }

  /** The newest records, at most as many as fit. */
  function Kept(rows: seq<Row>, capacity: nat): seq<Row> {
    if |rows| <= capacity then rows else rows[|rows| - capacity..]
  }

  /** A record that cannot be serialised (None) uses up its number and leaves no other trace. */
  function Appended(b: Buffer, content: Option<string>): Buffer {
    var number := b.last + 1;
    if content.None? then b.(last := number)
    else
      var row := Row(b.instance, number, content.value);
      b.(last := number,
         recent := Kept(b.recent + [row], b.capacity),
         journal := if b.durable && number <= b.capacity then b.journal + [row] else b.journal,
         checkpoint := if b.durable then number else b.checkpoint,
         overflow := if b.durable then number > b.capacity else b.overflow)
  }

  function Between(rows: seq<Row>, low: nat, high: nat): seq<Row> {
    if rows == [] then []
    else
      var row := rows[|rows| - 1];
      Between(rows[..|rows| - 1], low, high) + if low < row.number <= high then [row] else []
  }

  class EvidenceBuffer {
    const instance: string
    const capacity: nat
    const durable: bool
    var last: nat
    var recent: seq<Row>
    var journal: seq<Row>
    var checkpoint: nat
    var overflow: bool

    function State(): Buffer
      reads this
    {
      Buffer(instance, capacity, durable, last, recent, journal, checkpoint, overflow)
    }

    constructor (instance: string, capacity: nat, durable: bool)
      requires capacity > 0
      ensures State() == Empty(instance, capacity, durable)
    {
      this.instance, this.capacity, this.durable := instance, capacity, durable;
      last, recent, journal, checkpoint, overflow := 0, [], [], 0, false;
    }

    method Append(content: Option<string>) returns (r: Result<Row>)
      modifies this
      ensures State() == Appended(old(State()), content)
      ensures r.Success? <==> content.Some?
      ensures r.Success? ==> recent == Kept(old(recent) + [r.value], capacity) && r.value.number == last
    {
      last := last + 1;
      if content.None? {
        return Failure("record is not serialisable");
      }
      var row := Row(instance, last, content.value);
      if durable {
        if last <= capacity {
          journal := journal + [row];
        }
        checkpoint, overflow := last, last > capacity;
      }
      recent := Kept(recent + [row], capacity);
      r := Success(row);
    }

    /** The in-memory records past a cursor, and whether the buffer believes they are all. */
    method Snapshot(cursor: int) returns (r: Result<(seq<Row>, bool)>)
      ensures r.Failure? <==> cursor < 0
      ensures r.Success? ==> r.value == (Between(recent, cursor, last), Complete(State(), cursor))
    {
      if cursor < 0 {
        return Failure("negative cursor");
      }
      var first := if recent != [] then recent[0].number else last + 1;
      r := Success((Between(recent, cursor, last), first - 1 <= cursor <= last && !(durable && last > capacity)));
    }
  }

  function FirstAvailable(b: Buffer): nat {
    if b.recent != [] then b.recent[0].number else b.last + 1
  }

  predicate Complete(b: Buffer, cursor: int) {
    FirstAvailable(b) - 1 <= cursor <= b.last && !(b.durable && b.last > b.capacity)
  }

  // ----- captures -----

  datatype Capture = Capture(instance: string, recordSeq: nat, overflow: bool, rows: seq<Row>)

  /** What reading the checkpoint and then the journal past a cursor yields. */
  function Probe(b: Buffer, cursor: nat): Capture {
    Capture(b.instance, b.checkpoint, b.overflow, Between(b.journal, cursor, b.checkpoint))
  }

  function Numbers(rows: seq<Row>): seq<nat> {
    seq(|rows|, i requires 0 <= i < |rows| => rows[i].number)
  }

  function Range(low: nat, high: nat): seq<nat> {
    if high <= low then [] else seq(high - low, i requires 0 <= i => low + 1 + i)
  }

  function ValidateFence(start: Capture, end: Capture): seq<string> {
    (if start.instance != end.instance then ["process restarted inside capture segment"] else [])
    + (if start.overflow || end.overflow then ["journal capacity exceeded"] else [])
    + (if end.recordSeq < start.recordSeq then ["sequence moved backwards"] else [])
    + (if Numbers(end.rows) != Range(start.recordSeq, end.recordSeq) then ["missing or duplicated sequence records"]
       else [])
    + (if exists i :: 0 <= i < |end.rows| && end.rows[i].instance != end.instance
       then ["record process identity mismatch"] else [])
  }

  // ----- whole runs of one process -----

  function Run(instance: string, capacity: nat, durable: bool, contents: seq<Option<string>>): (b: Buffer)
    ensures b.instance == instance && b.capacity == capacity && b.durable == durable && b.last == |contents|
    ensures b.checkpoint <= |contents| && (b.overflow <==> b.checkpoint > capacity)
  {
    if contents == [] then Empty(instance, capacity, durable)
    else Appended(Run(instance, capacity, durable, contents[..|contents| - 1]), contents[|contents| - 1])
  }

  predicate Ascending(rows: seq<Row>) {
    forall i, j | 0 <= i < j < |rows| :: rows[i].number < rows[j].number
  }

  predicate Holds(rows: seq<Row>, number: nat) {
    exists i :: 0 <= i < |rows| && rows[i].number == number
  }

  predicate Faithful(row: Row, instance: string, contents: seq<Option<string>>) {
    0 < row.number <= |contents| && row.instance == instance && contents[row.number - 1] == Some(row.content)
  }

  /** Rows in number order, one for each record in the window that was serialised. */
  predicate Records(rows: seq<Row>, instance: string, contents: seq<Option<string>>, low: nat, high: nat) {
    && Ascending(rows)
    && (forall r | r in rows :: low < r.number <= high && Faithful(r, instance, contents))
    && (forall k | low <= k < high && k < |contents| && contents[k].Some? :: Holds(rows, k + 1))
  }

  lemma HoldsMore(rows: seq<Row>, row: Row)
    ensures Holds(rows + [row], row.number)
    ensures forall n: nat | Holds(rows, n) :: Holds(rows + [row], n)
  {
    var more := rows + [row];
    assert more[|rows|] == row;
    forall n: nat | Holds(rows, n) ensures Holds(more, n) {
      var i :| 0 <= i < |rows| && rows[i].number == n;
      assert more[i].number == n;
    }
  }

  lemma FaithfulStays(rows: seq<Row>, instance: string, contents: seq<Option<string>>, more: seq<Option<string>>)
    requires contents <= more && forall r | r in rows :: Faithful(r, instance, contents)
    ensures forall r | r in rows :: Faithful(r, instance, more)
  {
    forall r | r in rows ensures Faithful(r, instance, more) {
      assert Faithful(r, instance, contents);
    }
  }

  lemma RowExtends(rows: seq<Row>, instance: string, contents: seq<Option<string>>, high: nat, row: Row,
                   all: seq<Row>, more: seq<Option<string>>)
    requires Records(rows, instance, contents, 0, high) && all == rows + [row] && row.number <= high
    requires row.instance == instance && row.number == |contents| + 1 && more == contents + [Some(row.content)]
    ensures Records(all, instance, more, 0, high)
  {
    FaithfulStays(rows, instance, contents, more);
    assert Faithful(row, instance, more);
    assert forall r | r in rows :: Faithful(r, instance, contents);
    AscendingExtends(rows, row);
    HoldsMore(rows, row);
    forall k | 0 <= k < high && k < |more| && more[k].Some? ensures Holds(all, k + 1) {
      if k < |contents| { assert contents[k].Some?; }
    }
  }

  /** One more outcome extends the records by its row, or by nothing. */
  lemma RecordsExtend(rows: seq<Row>, instance: string, contents: seq<Option<string>>, high: nat,
                      next: Option<string>, more: seq<Option<string>>)
    requires Records(rows, instance, contents, 0, high) && more == contents + [next]
    ensures Records(if next.Some? && |more| <= high then rows + [Row(instance, |more|, next.value)] else rows,
                    instance, more, 0, high)
  {
    if next.Some? && |more| <= high {
      var row := Row(instance, |more|, next.value);
      RowExtends(rows, instance, contents, high, row, rows + [row], more);
    } else {
      FaithfulStays(rows, instance, contents, more);
      forall k | 0 <= k < high && k < |more| && more[k].Some? ensures Holds(rows, k + 1) {
        assert contents[k].Some?;
      }
    }
  }

  lemma {:induction false} JournalRecords(instance: string, capacity: nat, contents: seq<Option<string>>)
    ensures Records(Run(instance, capacity, true, contents).journal, instance, contents, 0, capacity)
  {
    if contents != [] {
      var front, next := contents[..|contents| - 1], contents[|contents| - 1];
      JournalRecords(instance, capacity, front);
      var before := Run(instance, capacity, true, front);
      RecordsExtend(before.journal, instance, front, capacity, next, contents);
      assert Run(instance, capacity, true, contents) == Appended(before, next);
    }
  }

  lemma WindowRecords(rows: seq<Row>, instance: string, contents: seq<Option<string>>, low: nat, high: nat, top: nat)
    requires Records(rows, instance, contents, 0, top) && high <= top
    ensures Records(Between(rows, low, high), instance, contents, low, high)
  {
    var window := Between(rows, low, high);
    BetweenIsOrdered(rows, low, high);
    BetweenSelects(rows, low, high);
    forall k | low <= k < high && k < |contents| && contents[k].Some? ensures Holds(window, k + 1) {
      assert Holds(rows, k + 1);
      var i :| 0 <= i < |rows| && rows[i].number == k + 1;
      assert rows[i] in window;
    }
  }

  lemma {:induction false} BetweenSelects(rows: seq<Row>, low: nat, high: nat)
    ensures forall r :: r in Between(rows, low, high) <==> r in rows && low < r.number <= high
  {
    if rows != [] {
      var front, last := rows[..|rows| - 1], rows[|rows| - 1];
      BetweenSelects(front, low, high);
      assert rows == front + [last];
    }
  }

  lemma AscendingExtends(rows: seq<Row>, last: Row)
    requires Ascending(rows) && forall r | r in rows :: r.number < last.number
    ensures Ascending(rows + [last])
  {
    var more := rows + [last];
    forall i, j | 0 <= i < j < |more| ensures more[i].number < more[j].number {
      assert i < |rows| ==> rows[i] in rows;
    }
  }

  lemma {:induction false} BetweenIsOrdered(rows: seq<Row>, low: nat, high: nat)
    requires Ascending(rows)
    ensures Ascending(Between(rows, low, high))
  {
    if rows != [] {
      var front, last := rows[..|rows| - 1], rows[|rows| - 1];
      BetweenIsOrdered(front, low, high);
      BetweenSelects(front, low, high);
      forall r | r in front ensures r.number < last.number {
        var i :| 0 <= i < |front| && front[i] == r;
        assert rows[i].number < rows[|rows| - 1].number;
      }
      AscendingExtends(Between(front, low, high), last);
    }
  }

  lemma LastIsHighest(rows: seq<Row>, low: nat, high: nat) returns (front: seq<Row>)
    requires Ascending(rows) && low < high
    requires forall r | r in rows :: low < r.number <= high
    requires forall k: nat | low < k <= high :: Holds(rows, k)
    ensures rows != [] && rows[|rows| - 1].number == high && front == rows[..|rows| - 1]
    ensures Ascending(front) && forall r | r in front :: low < r.number <= high - 1
    ensures forall k: nat | low < k <= high - 1 :: Holds(front, k)
  {
    assert Holds(rows, high);
    var last := |rows| - 1;
    var top :| 0 <= top <= last && rows[top].number == high;
    assert rows[last] in rows;
    assert top == last;
    front := rows[..last];
    forall k: nat | low < k <= high - 1 ensures Holds(front, k) {
      assert Holds(rows, k);
      var i :| 0 <= i < |rows| && rows[i].number == k;
      assert front[i].number == k;
    }
  }

  /** Increasing rows inside a window number it exactly when none of the window is missing. */
  lemma {:induction false} FillsWindow(rows: seq<Row>, low: nat, high: nat)
    requires Ascending(rows)
    requires forall r | r in rows :: low < r.number <= high
    requires forall k: nat | low < k <= high :: Holds(rows, k)
    ensures |rows| == (if low < high then high - low else 0)
    ensures forall i | 0 <= i < |rows| :: rows[i].number == low + 1 + i
    decreases high
  {
    if rows == [] {
      assert low < high ==> Holds(rows, high);
    } else {
      assert rows[0] in rows;
      var front := LastIsHighest(rows, low, high);
      FillsWindow(front, low, high - 1);
    }
  }

  /** Nothing between two checkpoints failed to be serialised. */
  predicate AllSerialised(contents: seq<Option<string>>, low: nat, high: nat) {
    high <= |contents| && forall k | low <= k < high :: contents[k].Some?
  }

  lemma {:induction false} CheckpointGrows(instance: string, capacity: nat, contents: seq<Option<string>>, m: nat)
    requires m <= |contents|
    ensures Run(instance, capacity, true, contents[..m]).checkpoint <= Run(instance, capacity, true, contents).checkpoint
  {
    if m == |contents| {
      assert contents[..m] == contents;
    } else {
      var front := contents[..|contents| - 1];
      CheckpointGrows(instance, capacity, front, m);
      assert front[..m] == contents[..m];
    }
  }

  /** One process without overflow, and its rows numbered without a gap. */
  predicate Accepted(start: Capture, end: Capture) {
    && start.instance == end.instance && !start.overflow && !end.overflow
    && start.recordSeq <= end.recordSeq
    && Numbers(end.rows) == Range(start.recordSeq, end.recordSeq)
    && forall i | 0 <= i < |end.rows| :: end.rows[i].instance == end.instance
  }

  lemma FenceMeans(start: Capture, end: Capture)
    ensures ValidateFence(start, end) == [] <==> Accepted(start, end)
  {
  }

  /** The fence accepts exactly when every record numbered between the two checkpoints was
      serialised and the journal never ran out of room; it then holds precisely those records. */
  lemma FenceIsExact(instance: string, capacity: nat, contents: seq<Option<string>>, m: nat, cursor: nat,
                     start: Buffer, end: Buffer, capture: Capture)
    requires m <= |contents| && start == Run(instance, capacity, true, contents[..m])
    requires end == Run(instance, capacity, true, contents) && capture == Probe(end, start.checkpoint)
    ensures ValidateFence(Probe(start, cursor), capture) == [] <==>
              end.checkpoint <= capacity && AllSerialised(contents, start.checkpoint, end.checkpoint)
    ensures ValidateFence(Probe(start, cursor), capture) == [] ==>
              && |capture.rows| == end.checkpoint - start.checkpoint
              && forall i | 0 <= i < |capture.rows| :: contents[start.checkpoint + i] == Some(capture.rows[i].content)
  {
    CheckpointGrows(instance, capacity, contents, m);
    JournalRecords(instance, capacity, contents);
    FenceBetween(Probe(start, cursor), capture, end.journal, capacity, contents);
    FenceMeans(Probe(start, cursor), capture);
  }

  lemma FenceBetween(start: Capture, end: Capture, journal: seq<Row>, capacity: nat, contents: seq<Option<string>>)
    requires start.instance == end.instance && start.recordSeq <= end.recordSeq <= |contents|
    requires (start.overflow <==> start.recordSeq > capacity) && (end.overflow <==> end.recordSeq > capacity)
    requires Records(journal, end.instance, contents, 0, capacity)
    requires end.rows == Between(journal, start.recordSeq, end.recordSeq)
    ensures Accepted(start, end) <==> end.recordSeq <= capacity && AllSerialised(contents, start.recordSeq, end.recordSeq)
    ensures Accepted(start, end) ==>
              && |end.rows| == end.recordSeq - start.recordSeq
              && forall i | 0 <= i < |end.rows| :: contents[start.recordSeq + i] == Some(end.rows[i].content)
  {
    if end.recordSeq <= capacity {
      WindowRecords(journal, end.instance, contents, start.recordSeq, end.recordSeq, capacity);
      FenceDecides(start, end, contents);
    }
  }

  /** Without overflow the fence asks for exactly the full window. */
  lemma FenceDecides(start: Capture, end: Capture, contents: seq<Option<string>>)
    requires start.instance == end.instance && start.recordSeq <= end.recordSeq <= |contents|
    requires !start.overflow && !end.overflow
    requires Records(end.rows, end.instance, contents, start.recordSeq, end.recordSeq)
    ensures Accepted(start, end) <==> AllSerialised(contents, start.recordSeq, end.recordSeq)
    ensures Accepted(start, end) ==>
              && |end.rows| == end.recordSeq - start.recordSeq
              && forall i | 0 <= i < |end.rows| :: contents[start.recordSeq + i] == Some(end.rows[i].content)
  {
    WindowIsExact(end.rows, end.instance, contents, start.recordSeq, end.recordSeq);
  }

  lemma WindowIsExact(rows: seq<Row>, instance: string, contents: seq<Option<string>>, low: nat, high: nat)
    requires Records(rows, instance, contents, low, high) && low <= high <= |contents|
    ensures Numbers(rows) == Range(low, high) <==> AllSerialised(contents, low, high)
    ensures Numbers(rows) == Range(low, high) ==>
              |rows| == high - low && forall i | 0 <= i < |rows| :: contents[low + i] == Some(rows[i].content)
    ensures forall i | 0 <= i < |rows| :: rows[i].instance == instance
  {
    forall i | 0 <= i < |rows| ensures rows[i].instance == instance {
      assert Faithful(rows[i], instance, contents);
    }
    if AllSerialised(contents, low, high) {
      FullWindow(rows, instance, contents, low, high);
    }
    if Numbers(rows) == Range(low, high) {
      NumberedWindow(rows, instance, contents, low, high);
    }
  }

  lemma FullWindow(rows: seq<Row>, instance: string, contents: seq<Option<string>>, low: nat, high: nat)
    requires Records(rows, instance, contents, low, high) && low <= high && AllSerialised(contents, low, high)
    ensures Numbers(rows) == Range(low, high)
  {
    forall k: nat | low < k <= high ensures Holds(rows, k) {
      assert contents[k - 1].Some?;
    }
    FillsWindow(rows, low, high);
  }

  lemma NumberedWindow(rows: seq<Row>, instance: string, contents: seq<Option<string>>, low: nat, high: nat)
    requires Records(rows, instance, contents, low, high) && low <= high && Numbers(rows) == Range(low, high)
    requires high <= |contents|
    ensures |rows| == high - low && AllSerialised(contents, low, high)
    ensures forall i | 0 <= i < |rows| :: contents[low + i] == Some(rows[i].content)
  {
    assert |Numbers(rows)| == high - low;
    forall i | 0 <= i < |rows| ensures contents[low + i] == Some(rows[i].content) {
      assert Numbers(rows)[i] == Range(low, high)[i];
      assert Faithful(rows[i], instance, contents);
    }
    forall k | low <= k < high ensures contents[k].Some? {
      assert contents[low + (k - low)] == Some(rows[k - low].content);
    }
  }

  /** Every record that was serialised, in order. */
  function Serialised(instance: string, contents: seq<Option<string>>): seq<Row> {
    if contents == [] then []
    else
      var front, next := contents[..|contents| - 1], contents[|contents| - 1];
      Serialised(instance, front) + if next.Some? then [Row(instance, |contents|, next.value)] else []
  }

  /** These are the newest of the rows: all of them, or as many as fit from the end. */
  predicate Newest(recent: seq<Row>, all: seq<Row>, capacity: nat) {
    if |all| <= capacity then recent == all else recent == all[|all| - capacity..]
  }

  predicate CurrentCheckpoint(b: Buffer, all: seq<Row>) {
    b.durable ==> b.checkpoint == if all == [] then 0 else all[|all| - 1].number
  }

  lemma KeptIsNewest(recent: seq<Row>, all: seq<Row>, capacity: nat, row: Row, more: seq<Row>)
    requires capacity > 0 && Newest(recent, all, capacity) && more == recent + [row]
    ensures Newest(Kept(more, capacity), all + [row], capacity)
  {
    if |all| > capacity {
      assert (all + [row])[|all| + 1 - capacity..] == all[|all| - capacity..][1..] + [row];
    }
  }

  lemma AppendKeepsNewest(b: Buffer, all: seq<Row>, content: string)
    requires b.capacity > 0 && Newest(b.recent, all, b.capacity)
    ensures var row := Row(b.instance, b.last + 1, content);
            && Newest(Appended(b, Some(content)).recent, all + [row], b.capacity)
            && CurrentCheckpoint(Appended(b, Some(content)), all + [row])
  {
    var row := Row(b.instance, b.last + 1, content);
    KeptIsNewest(b.recent, all, b.capacity, row, b.recent + [row]);
  }

  predicate HoldsNewest(b: Buffer, all: seq<Row>) {
    Newest(b.recent, all, b.capacity) && CurrentCheckpoint(b, all)
  }

  lemma OutcomeKeepsNewest(b: Buffer, all: seq<Row>, next: Option<string>, more: seq<Row>, n: Buffer)
    requires b.capacity > 0 && HoldsNewest(b, all) && n == Appended(b, next)
    requires more == all + if next.Some? then [Row(b.instance, b.last + 1, next.value)] else []
    ensures HoldsNewest(n, more)
  {
    if next.Some? {
      AppendKeepsNewest(b, all, next.value);
    }
  }

  /** Over every run the buffer keeps exactly the newest serialised records that fit, and the checkpoint
      names the last one: the journal is current when it is read. */
  lemma {:induction false} BufferHoldsNewest(instance: string, capacity: nat, durable: bool, contents: seq<Option<string>>)
    requires capacity > 0
    ensures HoldsNewest(Run(instance, capacity, durable, contents), Serialised(instance, contents))
  {
    if contents != [] {
      var front, next := contents[..|contents| - 1], contents[|contents| - 1];
      BufferHoldsNewest(instance, capacity, durable, front);
      OutcomeKeepsNewest(Run(instance, capacity, durable, front), Serialised(instance, front), next,
                         Serialised(instance, contents), Run(instance, capacity, durable, contents));
    }
  }

  // ----- the in-memory snapshot -----

  /** The retained rows are the serialised records from the first retained number on. */
  predicate Retained(rows: seq<Row>, instance: string, contents: seq<Option<string>>) {
    && Ascending(rows)
    && (forall r | r in rows :: Faithful(r, instance, contents))
    && (forall k | 0 <= k < |contents| && contents[k].Some? && k + 1 >= First(rows, |contents|) :: Holds(rows, k + 1))
  }

  function First(rows: seq<Row>, last: nat): nat {
    if rows != [] then rows[0].number else last + 1
  }

  /** Dropping the oldest rows leaves what lies past the new first one. */
  lemma DroppingRetains(rows: seq<Row>, instance: string, contents: seq<Option<string>>, drop: nat)
    requires Retained(rows, instance, contents) && drop <= |rows|
    ensures Retained(rows[drop..], instance, contents)
  {
    var kept := rows[drop..];
    forall k | 0 <= k < |contents| && contents[k].Some? && k + 1 >= First(kept, |contents|) ensures Holds(kept, k + 1) {
      if drop < |rows| {
        assert rows[0].number <= rows[drop].number;
        assert Holds(rows, k + 1);
        var i :| 0 <= i < |rows| && rows[i].number == k + 1;
        assert i >= drop && kept[i - drop] == rows[i];
      }
    }
  }

  lemma LossRetains(rows: seq<Row>, instance: string, contents: seq<Option<string>>, more: seq<Option<string>>)
    requires Retained(rows, instance, contents) && more == contents + [None]
    ensures Retained(rows, instance, more)
  {
    FaithfulStays(rows, instance, contents, more);
    forall k | 0 <= k < |more| && more[k].Some? && k + 1 >= First(rows, |more|) ensures Holds(rows, k + 1) {
      assert contents[k].Some?;
    }
  }

  lemma RowRetains(rows: seq<Row>, instance: string, contents: seq<Option<string>>, row: Row, all: seq<Row>,
                   more: seq<Option<string>>)
    requires Retained(rows, instance, contents) && all == rows + [row]
    requires row.instance == instance && row.number == |contents| + 1 && more == contents + [Some(row.content)]
    ensures Retained(all, instance, more)
  {
    FaithfulStays(rows, instance, contents, more);
    assert Faithful(row, instance, more);
    assert forall r | r in rows :: Faithful(r, instance, contents);
    AscendingExtends(rows, row);
    HoldsMore(rows, row);
    forall k | 0 <= k < |more| && more[k].Some? && k + 1 >= First(all, |more|) ensures Holds(all, k + 1) {
      if k < |contents| {
        assert contents[k].Some? && rows != [] && all[0] == rows[0];
      }
    }
  }

  lemma KeptRetains(rows: seq<Row>, instance: string, contents: seq<Option<string>>, capacity: nat)
    requires Retained(rows, instance, contents)
    ensures Retained(Kept(rows, capacity), instance, contents)
  {
    if |rows| > capacity {
      DroppingRetains(rows, instance, contents, |rows| - capacity);
    }
  }

  lemma AppendRetains(b: Buffer, contents: seq<Option<string>>, next: Option<string>, more: seq<Option<string>>)
    requires Retained(b.recent, b.instance, contents) && b.last == |contents| && more == contents + [next]
    ensures Retained(Appended(b, next).recent, b.instance, more)
  {
    if next.None? {
      LossRetains(b.recent, b.instance, contents, more);
    } else {
      var row := Row(b.instance, b.last + 1, next.value);
      RowRetains(b.recent, b.instance, contents, row, b.recent + [row], more);
      KeptRetains(b.recent + [row], b.instance, more, b.capacity);
    }
  }

  lemma {:induction false} RecentIsRetained(instance: string, capacity: nat, durable: bool, contents: seq<Option<string>>)
    ensures Retained(Run(instance, capacity, durable, contents).recent, instance, contents)
  {
    if contents != [] {
      var front, next := contents[..|contents| - 1], contents[|contents| - 1];
      RecentIsRetained(instance, capacity, durable, front);
      AppendRetains(Run(instance, capacity, durable, front), front, next, contents);
    }
  }

  lemma RetainedWindow(rows: seq<Row>, instance: string, contents: seq<Option<string>>, cursor: nat)
    requires Retained(rows, instance, contents) && First(rows, |contents|) - 1 <= cursor <= |contents|
    ensures Records(Between(rows, cursor, |contents|), instance, contents, cursor, |contents|)
  {
    var window := Between(rows, cursor, |contents|);
    BetweenIsOrdered(rows, cursor, |contents|);
    BetweenSelects(rows, cursor, |contents|);
    forall k | cursor <= k < |contents| && contents[k].Some? ensures Holds(window, k + 1) {
      assert Holds(rows, k + 1);
      var i :| 0 <= i < |rows| && rows[i].number == k + 1;
      assert rows[i] in window;
    }
  }

  /** A snapshot that calls itself complete holds every record that was serialised past the cursor,
      and has no gap exactly when every record past the cursor was serialised. */
  lemma CompleteIsExact(instance: string, capacity: nat, durable: bool, contents: seq<Option<string>>, cursor: nat)
    requires Complete(Run(instance, capacity, durable, contents), cursor)
    ensures var b := Run(instance, capacity, durable, contents);
            var rows := Between(b.recent, cursor, b.last);
            && Records(rows, instance, contents, cursor, b.last)
            && (Numbers(rows) == Range(cursor, b.last) <==> AllSerialised(contents, cursor, b.last))
  {
    var b := Run(instance, capacity, durable, contents);
    RecentIsRetained(instance, capacity, durable, contents);
    RetainedWindow(b.recent, instance, contents, cursor);
    WindowIsExact(Between(b.recent, cursor, b.last), instance, contents, cursor, b.last);
  }

  /** A witness of the other side: after a record that could not be serialised the snapshot still
      says complete; the fence over the same run rejects it. */
  lemma CompleteOverlooksLostRecords(instance: string)
    ensures var b := Run(instance, 4, true, [Some("a"), None, Some("c")]);
            && Complete(b, 0) && |Between(b.recent, 0, b.last)| == 2
            && ValidateFence(Probe(Empty(instance, 4, true), 0), Probe(b, 0)) != []
  {
    var contents: seq<Option<string>> := [Some("a"), None, Some("c")];
    assert contents[..2][..1] == contents[..1];
    var one := Run(instance, 4, true, contents[..1]);
    assert contents[..1][..0] == [] && contents[..1][0] == Some("a");
    assert Run(instance, 4, true, []) == Empty(instance, 4, true);
    assert one == Appended(Empty(instance, 4, true), Some("a"));
    var two := Run(instance, 4, true, contents[..2]);
    assert two == Appended(one, None);
    var b := Run(instance, 4, true, contents);
    assert b == Appended(two, Some("c"));
    var first, third := Row(instance, 1, "a"), Row(instance, 3, "c");
    assert b.recent == b.journal == [first, third];
    assert [first, third][..1] == [first] && [first][..0] == [];
    assert Between([first], 0, 3) == [first];
    assert Between([first, third], 0, 3) == [first, third];
    assert Numbers([first, third])[1] == 3 != Range(0, 3)[1];
  }
}
