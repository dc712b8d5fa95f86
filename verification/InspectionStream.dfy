/** The simulator's inspection generator: which bottles are inspected, what the snapshot
    registers then hold, and why no identity is ever used for two inspections. */
module InspectionStream {
  import opened Common
  import opened InspectionCodec

  /** Sessions run from 1 to this and then start over. */
  const SESSIONS: nat := QWORD - 1

  const LAST_SEQUENCE: nat := WORD - 1

  function NextSession(session: nat): nat {
    session % SESSIONS + 1
  }

  function NextIdentity(last: InspectionId): InspectionId {
    if last.sequence + 1 > LAST_SEQUENCE then InspectionId(NextSession(last.session), 1)
    else InspectionId(last.session, last.sequence + 1)
  }

  /** A reboot never continues a session: it opens the next one. */
  function RebootIdentity(last: InspectionId): InspectionId {
    InspectionId(NextSession(last.session), 0)
  }

  /** Whole milliseconds of a clock reading, truncated toward zero. */
  function Millis(now: Time): int {
    if now >= 0 then now / MILLI else -((-now) / MILLI)
  }

  /** Three register words hold this many milliseconds. */
  predicate Timely(now: Time) {
    0 <= Millis(now) < TWORD
  }

  /** A timestamp names no instant past the year 9999. */
  predicate Nameable(now: Time) {
    now < MILLIS_END * MILLI
  }

  datatype Stream = Stream(last: InspectionId, bottles: nat, inspected: nat, failed: nat, snapshot: Registers)

  /** What a saved stream holds besides its position: the intervals it was sampling at. */
  datatype Kept = Kept(stream: Stream, every: nat, failEvery: nat)

  predicate Sound(k: Kept) {
    0 < k.stream.last.session <= SESSIONS && k.every > 0 && k.failEvery > 0
  }

  predicate Due(every: nat, s: Stream)
    requires every > 0
  {
    (s.bottles + 1) % every == 0
  }

  /** The inspection the next due bottle yields. */
  function Yielded(failEvery: nat, s: Stream, bottle: nat, now: Time): Inspection
    requires failEvery > 0 && Timely(now)
  {
    Inspection(NextIdentity(s.last), bottle, (s.inspected + 1) % failEvery != 0, Millis(now) * MILLI)
  }

  /** Bottle and identity are counted even when the timestamp then turns out unusable. */
  function Observed(every: nat, failEvery: nat, s: Stream, bottle: nat, now: Time): Stream
    requires every > 0 && failEvery > 0
  {
    if !Due(every, s) then s.(bottles := s.bottles + 1)
    else
      Stream(NextIdentity(s.last), s.bottles + 1, s.inspected + 1,
             s.failed + (if (s.inspected + 1) % failEvery == 0 then 1 else 0),
             if Timely(now) then Encode(Some(Yielded(failEvery, s, bottle, now))) else s.snapshot)
  }

  /** The snapshot decodes to exactly the identity, bottle, verdict and time observed. */
  lemma SnapshotDecodes(every: nat, failEvery: nat, s: Stream, bottle: nat, now: Time)
    requires every > 0 && failEvery > 0 && Due(every, s) && Timely(now) && Nameable(now) && 0 < bottle < WORD
    requires 0 < s.last.session <= SESSIONS && s.last.sequence <= LAST_SEQUENCE
    ensures Decode(Observed(every, failEvery, s, bottle, now).snapshot)
         == Success(Some(Yielded(failEvery, s, bottle, now)))
  {
    var event := Yielded(failEvery, s, bottle, now);
    assert event.at / MILLI == Millis(now);
    DecodeEncode(event);
  }

  /** The ten registers are written out word by word. */
  method Write(id: InspectionId, bottle: nat, failed: bool, millis: nat) returns (words: Registers)
    ensures words == Encode(Some(Inspection(id, bottle, !failed, millis * MILLI)))
  {
    words := SessionWords(id.session) + [id.sequence, bottle, if failed then 2 else 1]
             + [millis / DWORD % WORD, millis / WORD % WORD, millis % WORD];
    assert (millis * MILLI) / MILLI == millis;
  }

  class InspectionStream {
    const everyNBottles: nat
    const failEveryNInspections: nat
    var session: nat
    var inspected: nat
    var failed: nat
    var bottles: nat
    var sequence: nat
    var snapshot: Registers

    ghost predicate Valid()
      reads this
    {
      && everyNBottles > 0 && failEveryNInspections > 0
      && 0 < session <= SESSIONS && sequence <= LAST_SEQUENCE
    }

    ghost function State(): Stream
      reads this
    {
      Stream(InspectionId(session, sequence), bottles, inspected, failed, snapshot)
    }

    constructor (session: nat, everyNBottles: nat, failEveryNInspections: nat)
      requires 0 < session < QWORD && everyNBottles > 0 && failEveryNInspections > 0
      ensures Valid() && State() == Stream(InspectionId(session, 0), 0, 0, 0, BLANK)
      ensures this.everyNBottles == everyNBottles && this.failEveryNInspections == failEveryNInspections
    {
      this.session := session;
      this.everyNBottles := everyNBottles;
      this.failEveryNInspections := failEveryNInspections;
      inspected, failed, bottles, sequence := 0, 0, 0, 0;
      snapshot := BLANK;
    }

    /** After a restart the counters, the snapshot and the sampling intervals come back as saved,
        whatever is configured now, in a session of their own. */
    constructor Restore(saved: Kept)
      requires Sound(saved)
      ensures Valid() && State() == saved.stream.(last := RebootIdentity(saved.stream.last))
      ensures everyNBottles == saved.every && failEveryNInspections == saved.failEvery
    {
      session, sequence := saved.stream.last.session % SESSIONS + 1, 0;
      everyNBottles, failEveryNInspections := saved.every, saved.failEvery;
      inspected, failed := saved.stream.inspected, saved.stream.failed;
      bottles, snapshot := saved.stream.bottles, saved.stream.snapshot;
    }

    method Advance()
      requires Valid()
      modifies this`session, this`sequence
      ensures Valid() && InspectionId(session, sequence) == NextIdentity(old(InspectionId(session, sequence)))
    {
      sequence := sequence + 1;
      if sequence > LAST_SEQUENCE {
        sequence := 1;
        session := session % SESSIONS + 1;
      }
    }

    method Observe(bottle: nat, now: Time) returns (r: Result<()>)
      requires Valid() && Nameable(now)
      modifies this
      ensures Valid()
      ensures !(0 < bottle < WORD) ==> r.Failure? && State() == old(State())
      ensures 0 < bottle < WORD ==>
        && State() == Observed(everyNBottles, failEveryNInspections, old(State()), bottle, now)
        && (r.Success? <==> !Due(everyNBottles, old(State())) || Timely(now))
    {
      if bottle == 0 || bottle >= WORD {
        return Failure("inspection requires a valid bottle ID and aware timestamp");
      }
      bottles := bottles + 1;
      if bottles % everyNBottles != 0 {
        return Success(());
      }
      inspected := inspected + 1;
      Advance();
      var failedNow := inspected % failEveryNInspections == 0;
      if failedNow {
        failed := failed + 1;
      }
      var millis := Millis(now);
      if millis < 0 || millis >= TWORD {
        return Failure("inspection timestamp does not fit the wire representation");
      }
      snapshot := Write(InspectionId(session, sequence), bottle, failedNow, millis);
      r := Success(());
    }
  }

  // ----- identities over the life of a journalled device -----

  datatype Move = Inspect | Reboot

  /** `changes` counts how often the session has moved on since the device was new. */
  datatype Generator = Generator(last: InspectionId, changes: nat)

  datatype Issue = Issue(id: InspectionId, change: nat)

  datatype Life = Life(generator: Generator, issued: seq<Issue>)

  function Moved(g: Generator, move: Move): Generator {
    match move
    case Reboot => Generator(RebootIdentity(g.last), g.changes + 1)
    case Inspect =>
      Generator(NextIdentity(g.last), if g.last.sequence + 1 > LAST_SEQUENCE then g.changes + 1 else g.changes)
  }

  function Live(l: Life, move: Move): Life {
    var g := Moved(l.generator, move);
    Life(g, if move.Inspect? then l.issued + [Issue(g.last, g.changes)] else l.issued)
  }

  function SessionAfter(first: nat, changes: nat): nat
    requires first > 0
  {
    (first - 1 + changes) % SESSIONS + 1
  }

  predicate Precedes(a: Issue, change: nat, sequence: nat) {
    a.change < change || (a.change == change && a.id.sequence < sequence)
  }

  /** Identities are issued in order of session change, then sequence. */
  ghost predicate LifeInv(first: nat, l: Life)
    requires first > 0
  {
    && l.generator.last.session == SessionAfter(first, l.generator.changes)
    && l.generator.last.sequence <= LAST_SEQUENCE
    && (forall a | a in l.issued ::
          && Precedes(a, l.generator.changes, l.generator.last.sequence + 1)
          && ValidId(a.id) && a.id.session == SessionAfter(first, a.change))
    && (forall i, j | 0 <= i < j < |l.issued| :: Precedes(l.issued[i], l.issued[j].change, l.issued[j].id.sequence))
  }

  lemma SessionsAdvance(first: nat, changes: nat)
    requires 0 < first <= SESSIONS
    ensures NextSession(SessionAfter(first, changes)) == SessionAfter(first, changes + 1)
    ensures 0 < SessionAfter(first, changes) <= SESSIONS
  {
  }

  lemma IssueExtends(issued: seq<Issue>, next: Issue)
    requires forall a | a in issued :: Precedes(a, next.change, next.id.sequence)
    requires forall i, j | 0 <= i < j < |issued| :: Precedes(issued[i], issued[j].change, issued[j].id.sequence)
    ensures var more := issued + [next];
            forall i, j | 0 <= i < j < |more| :: Precedes(more[i], more[j].change, more[j].id.sequence)
  {
    assert forall i | 0 <= i < |issued| :: issued[i] in issued;
  }

  lemma LiveKeepsInv(first: nat, l: Life, move: Move)
    requires 0 < first <= SESSIONS && LifeInv(first, l)
    ensures LifeInv(first, Live(l, move))
  {
    var g := Moved(l.generator, move);
    SessionsAdvance(first, l.generator.changes);
    SessionsAdvance(first, g.changes);
    if move.Inspect? {
      IssueExtends(l.issued, Issue(g.last, g.changes));
    }
  }

  function LifeOf(first: nat, moves: seq<Move>): Life {
    if moves == [] then Life(Generator(InspectionId(first, 0), 0), [])
    else Live(LifeOf(first, moves[..|moves| - 1]), moves[|moves| - 1])
  }

  lemma {:induction false} LifeKeepsInv(first: nat, moves: seq<Move>)
    requires 0 < first <= SESSIONS
    ensures LifeInv(first, LifeOf(first, moves))
  {
    if moves != [] {
      LifeKeepsInv(first, moves[..|moves| - 1]);
      LiveKeepsInv(first, LifeOf(first, moves[..|moves| - 1]), moves[|moves| - 1]);
    }
  }

  /** Two inspections share an identity exactly when the sequence repeats after whole turns of
      all 2^64 - 1 sessions. */
  lemma IdentitiesCollideExactly(first: nat, moves: seq<Move>, i: nat, j: nat)
    requires 0 < first <= SESSIONS && i < j < |LifeOf(first, moves).issued|
    ensures var a := LifeOf(first, moves).issued[i];
            var b := LifeOf(first, moves).issued[j];
            a.id == b.id <==> a.id.sequence == b.id.sequence && a.change < b.change && (b.change - a.change) % SESSIONS == 0
  {
    LifeKeepsInv(first, moves);
    IssuesCollide(first, LifeOf(first, moves), i, j);
  }

  lemma IssuesCollide(first: nat, l: Life, i: nat, j: nat)
    requires 0 < first <= SESSIONS && LifeInv(first, l) && i < j < |l.issued|
    ensures var a, b := l.issued[i], l.issued[j];
            a.id == b.id <==> a.id.sequence == b.id.sequence && a.change < b.change && (b.change - a.change) % SESSIONS == 0
  {
    var a, b := l.issued[i], l.issued[j];
    assert a in l.issued && b in l.issued;
    SameResidue(first - 1 + a.change, first - 1 + b.change);
  }

  lemma SameResidue(x: nat, y: nat)
    requires x <= y
    ensures x % SESSIONS == y % SESSIONS <==> (y - x) % SESSIONS == 0
  {
    var q, r := x / SESSIONS, x % SESSIONS;
    var p, t := y / SESSIONS, y % SESSIONS;
    assert y - x == (p - q) * SESSIONS + (t - r);
  }

  lemma IssuesDistinct(first: nat, l: Life, i: nat, j: nat)
    requires 0 < first <= SESSIONS && LifeInv(first, l) && i < j < |l.issued|
    requires l.generator.changes < SESSIONS
    ensures l.issued[i].id != l.issued[j].id
  {
    IssuesCollide(first, l, i, j);
    assert l.issued[j] in l.issued;
  }

  /** Until the sessions have all been used once, every inspection has its own identity. */
  lemma IdentitiesNeverRepeat(first: nat, moves: seq<Move>, i: nat, j: nat)
    requires 0 < first <= SESSIONS && i < j < |LifeOf(first, moves).issued|
    requires LifeOf(first, moves).generator.changes < SESSIONS
    ensures LifeOf(first, moves).issued[i].id != LifeOf(first, moves).issued[j].id
  {
    LifeKeepsInv(first, moves);
    IssuesDistinct(first, LifeOf(first, moves), i, j);
  }
}
