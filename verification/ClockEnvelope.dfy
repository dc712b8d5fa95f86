/** Calibrating a component's record against the host clock, and what verdicts drawn from
    calibrated times say about real time. Readings are integer nanoseconds; true instants, which
    no program reads exactly, are reals on the same scale. */
module ClockEnvelope {
  import opened Common

  /** Truncation to a microsecond and halving may move the reported instant by just under this. */
  const SLACK: real := 1000.0

  /** A host sample: the wall clock read between two monotonic readings. */
  datatype Host = Host(wall: int, before: int, after: int, resolution: nat)

  /** A component's monotonic readings around one of its own steps. */
  datatype Stamp = Stamp(domain: string, before: int, after: int)

  /** One exchange: the host reads its clocks, the component reads its own, the host reads again. */
  datatype Probe = Probe(clientBefore: Host, remote: Stamp, clientAfter: Host)

  datatype Calibrated = Calibrated(at: int, uncertainty: real)

  function OffsetLow(p: Probe): int {
    p.clientBefore.before - p.remote.after
  }

  function OffsetHigh(p: Probe): int {
    p.clientAfter.after - p.remote.before
  }

  function WallLow(h: Host): int {
    h.wall - h.after - h.resolution
  }

  function WallHigh(h: Host): int {
    h.wall - h.before + h.resolution
  }

  function Hosts(start: Probe, end: Probe, samples: seq<Host>): seq<Host> {
    [start.clientBefore, start.clientAfter, end.clientBefore, end.clientAfter] + samples
  }

  /** Every host reading counts: those around both probes and the further samples. */
  lemma HostsAreAll(start: Probe, end: Probe, samples: seq<Host>, h: Host)
    ensures h in Hosts(start, end, samples) <==>
              || h == start.clientBefore || h == start.clientAfter || h == end.clientBefore || h == end.clientAfter
              || h in samples
  {
  }

  function LowestWall(hosts: seq<Host>): (low: int)
    requires hosts != []
    ensures forall h | h in hosts :: low <= WallLow(h)
    ensures exists h :: h in hosts && low == WallLow(h)
  {
    if |hosts| == 1 then WallLow(hosts[0])
    else
      var rest := LowestWall(hosts[1..]);
      if WallLow(hosts[0]) < rest then WallLow(hosts[0]) else rest
  }

  function HighestWall(hosts: seq<Host>): (high: int)
    requires hosts != []
    ensures forall h | h in hosts :: high >= WallHigh(h)
    ensures exists h :: h in hosts && high == WallHigh(h)
  {
    if |hosts| == 1 then WallHigh(hosts[0])
    else
      var rest := HighestWall(hosts[1..]);
      if WallHigh(hosts[0]) > rest then WallHigh(hosts[0]) else rest
  }

  function Least(a: int, b: int): int {
    if b < a then b else a
  }

  /** Whole seconds plus whole microseconds; divisions floor. */
  function Truncate(middle: int): int {
    middle / 1_000_000_000 * 1_000_000_000 + middle % 1_000_000_000 / 1_000 * 1_000
  }

  function Centre(low: int, high: int): Calibrated {
    Calibrated(Truncate((low + high) / 2), (high - low) as real / 2.0 + SLACK)
  }

  function Calibrate(record: Stamp, start: Probe, end: Probe, samples: seq<Host>): Result<Calibrated> {
    if record.domain == "" || record.domain != start.remote.domain || record.domain != end.remote.domain then
      Failure("clock domain changed")
    else if !(start.remote.before <= record.before <= record.after <= end.remote.after) then
      Failure("record outside bracketing calibration")
    else if start.clientAfter.wall < start.clientBefore.wall || end.clientAfter.wall < end.clientBefore.wall then
      Failure("reference clock moved backwards")
    else
      var hosts := Hosts(start, end, samples);
      Success(Centre(record.before + Least(OffsetLow(start), OffsetLow(end)) + LowestWall(hosts),
                     record.after - Least(-OffsetHigh(start), -OffsetHigh(end)) + HighestWall(hosts)))
  }

  // ----- what is true of the clocks, whether or not anybody knows it -----

  /** The instant the component answered a probe, on the host's and on its own monotonic clock. */
  datatype Meeting = Meeting(host: real, remote: real) {
    function Offset(): real { host - remote }
  }

  /** Causality: the answer lies inside the host's bracket and inside the component's own. */
  predicate Met(p: Probe, m: Meeting) {
    && p.clientBefore.before as real <= m.host <= p.clientAfter.after as real
    && p.remote.before as real <= m.remote <= p.remote.after as real
  }

  /** The instant a host read its wall clock, on the true wall scale and on its monotonic clock. */
  datatype Look = Look(wall: real, monotonic: real) {
    function Offset(): real { wall - monotonic }
  }

  predicate Looked(h: Host, l: Look) {
    && h.before as real <= l.monotonic <= h.after as real
    && h.wall as real - h.resolution as real <= l.wall <= h.wall as real + h.resolution as real
  }

  lemma MeetingBoundsOffset(p: Probe, m: Meeting)
    requires Met(p, m)
    ensures OffsetLow(p) as real <= m.Offset() <= OffsetHigh(p) as real
  {
  }

  lemma LookBoundsOffset(h: Host, l: Look)
    requires Looked(h, l)
    ensures WallLow(h) as real <= l.Offset() <= WallHigh(h) as real
  {
  }

  lemma TruncationIsSmall(middle: int)
    ensures Truncate(middle) <= middle <= Truncate(middle) + 999 && Truncate(middle) % 1_000 == 0
  {
    var rest := middle % 1_000_000_000;
    assert middle == middle / 1_000_000_000 * 1_000_000_000 + rest;
    assert 0 <= rest - rest / 1_000 * 1_000 <= 999;
  }

  /** Floor-halving and truncation stay inside the slack. */
  lemma CentreCovers(low: int, high: int, instant: real)
    requires low as real <= instant <= high as real
    ensures var c := Centre(low, high);
            -c.uncertainty <= instant - c.at as real <= c.uncertainty
  {
    var middle := (low + high) / 2;
    TruncationIsSmall(middle);
    assert 2 * middle <= low + high <= 2 * middle + 1;
    assert middle as real <= (low + high) as real / 2.0 <= middle as real + 0.5;
    assert Truncate(middle) as real <= middle as real <= Truncate(middle) as real + 999.0;
  }

  /** Any slack below 999.5 ns would already exclude an instant at the edge of this envelope. */
  lemma SlackIsNearlyTight(slack: real)
    requires slack < 999.5
    ensures var c := Centre(999, 1000);
            1000.0 - c.at as real > (1000 - 999) as real / 2.0 + slack
  {
    assert Truncate(999) == 0;
  }

  lemma WallIsBounded(hosts: seq<Host>, slow: nat, slowLook: Look, fast: nat, fastLook: Look, wallOffset: real)
    requires slow < |hosts| && Looked(hosts[slow], slowLook) && fast < |hosts| && Looked(hosts[fast], fastLook)
    requires slowLook.Offset() <= wallOffset <= fastLook.Offset()
    ensures LowestWall(hosts) as real <= wallOffset <= HighestWall(hosts) as real
  {
    LookBoundsOffset(hosts[slow], slowLook);
    LookBoundsOffset(hosts[fast], fastLook);
  }

  lemma OffsetIsBounded(start: Probe, end: Probe, first: Meeting, second: Meeting, offset: real)
    requires Met(start, first) && Met(end, second)
    requires first.Offset() <= offset <= second.Offset() || second.Offset() <= offset <= first.Offset()
    ensures Least(OffsetLow(start), OffsetLow(end)) as real <= offset
    ensures offset <= (-Least(-OffsetHigh(start), -OffsetHigh(end))) as real
  {
    MeetingBoundsOffset(start, first);
    MeetingBoundsOffset(end, second);
  }

  /** If, when the record was made, the component-to-host offset lay between its values at the two
      probes and the host-to-wall offset between its values at two host samples, then the true
      instant is within the stated uncertainty of the calibrated one. */
  lemma EnvelopeIsSound(record: Stamp, start: Probe, end: Probe, samples: seq<Host>,
                        first: Meeting, second: Meeting, slow: nat, slowLook: Look, fast: nat, fastLook: Look,
                        local: real, offset: real, wallOffset: real)
    requires Calibrate(record, start, end, samples).Success?
    requires Met(start, first) && Met(end, second)
    requires first.Offset() <= offset <= second.Offset() || second.Offset() <= offset <= first.Offset()
    requires slow < |Hosts(start, end, samples)| && Looked(Hosts(start, end, samples)[slow], slowLook)
    requires fast < |Hosts(start, end, samples)| && Looked(Hosts(start, end, samples)[fast], fastLook)
    requires slowLook.Offset() <= wallOffset <= fastLook.Offset()
    requires record.before as real <= local <= record.after as real
    ensures var c := Calibrate(record, start, end, samples).value;
            -c.uncertainty <= local + offset + wallOffset - c.at as real <= c.uncertainty
  {
    var hosts := Hosts(start, end, samples);
    var offsetLow := Least(OffsetLow(start), OffsetLow(end));
    var offsetHigh := -Least(-OffsetHigh(start), -OffsetHigh(end));
    OffsetIsBounded(start, end, first, second, offset);
    WallIsBounded(hosts, slow, slowLook, fast, fastLook, wallOffset);
    CentreCovers(record.before + offsetLow + LowestWall(hosts), record.after + offsetHigh + HighestWall(hosts),
                 local + offset + wallOffset);
  }

  /** One way things may have been: when the component answered each probe, when two hosts read their
      clocks, and where the record's instant and the offsets then lay. */
  datatype Scenario = Scenario(first: Meeting, second: Meeting, slow: nat, slowLook: Look, fast: nat, fastLook: Look,
                               local: real, offset: real, wallOffset: real)
  {
    function Instant(): real { local + offset + wallOffset }
  }

  /** The scenario agrees with every reading, and its offsets lie between their values at the ends. */
  predicate Plays(record: Stamp, start: Probe, end: Probe, samples: seq<Host>, x: Scenario) {
    var hosts := Hosts(start, end, samples);
    && Met(start, x.first) && Met(end, x.second)
    && (x.first.Offset() <= x.offset <= x.second.Offset() || x.second.Offset() <= x.offset <= x.first.Offset())
    && x.slow < |hosts| && Looked(hosts[x.slow], x.slowLook)
    && x.fast < |hosts| && Looked(hosts[x.fast], x.fastLook)
    && x.slowLook.Offset() <= x.wallOffset <= x.fastLook.Offset()
    && record.before as real <= x.local <= record.after as real
  }

  /** Monotonic readings taken one after the other do not fall. */
  predicate Forward(p: Probe) {
    p.clientBefore.before <= p.clientAfter.after && p.remote.before <= p.remote.after
  }

  function EarlyMeeting(p: Probe): (m: Meeting)
    requires Forward(p)
    ensures Met(p, m) && m.Offset() == OffsetLow(p) as real
  {
    Meeting(p.clientBefore.before as real, p.remote.after as real)
  }

  function LateMeeting(p: Probe): (m: Meeting)
    requires Forward(p)
    ensures Met(p, m) && m.Offset() == OffsetHigh(p) as real
  {
    Meeting(p.clientAfter.after as real, p.remote.before as real)
  }

  lemma EarliestScenario(record: Stamp, start: Probe, end: Probe, samples: seq<Host>) returns (x: Scenario)
    requires Calibrate(record, start, end, samples).Success? && Forward(start) && Forward(end)
    requires forall h | h in Hosts(start, end, samples) :: h.before <= h.after
    ensures Plays(record, start, end, samples, x)
    ensures x.Instant() == (record.before + Least(OffsetLow(start), OffsetLow(end))
                            + LowestWall(Hosts(start, end, samples))) as real
  {
    var hosts := Hosts(start, end, samples);
    var h :| h in hosts && LowestWall(hosts) == WallLow(h);
    var k: nat :| k < |hosts| && hosts[k] == h;
    var look := Look(h.wall as real - h.resolution as real, h.after as real);
    var first, second := EarlyMeeting(start), EarlyMeeting(end);
    x := Scenario(first, second, k, look, k, look, record.before as real,
                  if first.Offset() <= second.Offset() then first.Offset() else second.Offset(), look.Offset());
  }

  lemma LatestScenario(record: Stamp, start: Probe, end: Probe, samples: seq<Host>) returns (x: Scenario)
    requires Calibrate(record, start, end, samples).Success? && Forward(start) && Forward(end)
    requires forall h | h in Hosts(start, end, samples) :: h.before <= h.after
    ensures Plays(record, start, end, samples, x)
    ensures x.Instant() == (record.after - Least(-OffsetHigh(start), -OffsetHigh(end))
                            + HighestWall(Hosts(start, end, samples))) as real
  {
    var hosts := Hosts(start, end, samples);
    var h :| h in hosts && HighestWall(hosts) == WallHigh(h);
    var k: nat :| k < |hosts| && hosts[k] == h;
    var look := Look(h.wall as real + h.resolution as real, h.before as real);
    var first, second := LateMeeting(start), LateMeeting(end);
    x := Scenario(first, second, k, look, k, look, record.after as real,
                  if first.Offset() >= second.Offset() then first.Offset() else second.Offset(), look.Offset());
  }

  /** The envelope is no wider than the readings allow: two scenarios that agree with all of them lie
      apart by twice the stated uncertainty, but for the microsecond of slack on either side; and no
      scenario lies outside it. */
  lemma EnvelopeIsTight(record: Stamp, start: Probe, end: Probe, samples: seq<Host>)
    returns (early: Scenario, late: Scenario)
    requires Calibrate(record, start, end, samples).Success? && Forward(start) && Forward(end)
    requires forall h | h in Hosts(start, end, samples) :: h.before <= h.after
    ensures Plays(record, start, end, samples, early) && Plays(record, start, end, samples, late)
    ensures var c := Calibrate(record, start, end, samples).value;
            && late.Instant() - early.Instant() == 2.0 * (c.uncertainty - 1000.0)
            && forall x | Plays(record, start, end, samples, x) ::
                 -c.uncertainty <= x.Instant() - c.at as real <= c.uncertainty
  {
    early := EarliestScenario(record, start, end, samples);
    late := LatestScenario(record, start, end, samples);
    var c := Calibrate(record, start, end, samples).value;
    forall x | Plays(record, start, end, samples, x)
      ensures -c.uncertainty <= x.Instant() - c.at as real <= c.uncertainty
    {
      EnvelopeIsSound(record, start, end, samples, x.first, x.second, x.slow, x.slowLook, x.fast, x.fastLook,
                      x.local, x.offset, x.wallOffset);
    }
  }

  /** A record is refused exactly when it shares no clock domain with both probes, does not lie between
      them, or the reference clock ran back during one of them. */
  lemma CalibrationIsGuarded(record: Stamp, start: Probe, end: Probe, samples: seq<Host>)
    ensures Calibrate(record, start, end, samples).Success? <==>
            && record.domain != "" && record.domain == start.remote.domain == end.remote.domain
            && start.remote.before <= record.before <= record.after <= end.remote.after
            && start.clientBefore.wall <= start.clientAfter.wall && end.clientBefore.wall <= end.clientAfter.wall
  {
  }

  // ----- ordering records -----

  /** A record as the conformance script reads it; an empty domain is no domain. */
  datatype Record = Record(
    component: string,
    process: string,
    domain: string,
    monotonic: int,
    monotonicBefore: Option<int>,
    monotonicAfter: Option<int>,
    at: int,
    uncertainty: Option<real>)
  {
    function Before(): int {
      if monotonicBefore.Some? then monotonicBefore.value else monotonic
    }

    function After(): int {
      if monotonicAfter.Some? then monotonicAfter.value else monotonic
    }
  }

  predicate SameDomain(a: Record, b: Record) {
    a.domain != "" && a.domain == b.domain
  }

  predicate SameProcess(a: Record, b: Record) {
    a.component == b.component && a.process == b.process
  }

  /** Three-valued: None is "cannot tell". */
  function Before(a: Record, b: Record): Option<bool> {
    if SameDomain(a, b) then
      if a.After() < b.Before() then Some(true)
      else if a.Before() > b.After() then Some(false)
      else None
    else if SameProcess(a, b) then Some(a.monotonic < b.monotonic)
    else if a.uncertainty.None? || b.uncertainty.None? then None
    else
      var delta := (b.at - a.at) as real;
      var slack := a.uncertainty.value + b.uncertainty.value;
      if delta > slack then Some(true) else if delta < -slack then Some(false) else None
  }

  function Magnitude(x: real): real {
    if x < 0.0 then -x else x
  }

  function WithinWindow(a: Record, b: Record, window: real): Option<bool> {
    if SameProcess(a, b) then Some(Magnitude((a.monotonic - b.monotonic) as real) <= window)
    else if a.uncertainty.None? || b.uncertainty.None? then None
    else
      var gap := Magnitude((b.at - a.at) as real);
      var slack := a.uncertainty.value + b.uncertainty.value;
      if gap + slack <= window then Some(true) else if gap - slack > window then Some(false) else None
  }

  datatype Status = Pass | Fail | Unknown

  function DeadlineStatus(at: int, uncertainty: Option<real>, deadline: int): Status {
    if uncertainty.None? then Unknown
    else
      var remaining := (deadline - at) as real;
      if remaining >= uncertainty.value then Pass
      else if remaining < -uncertainty.value then Fail
      else Unknown
  }

  /** A record with the instant it was made: on its own monotonic clock, and in real time. */
  datatype Event = Event(record: Record, local: real, happened: real)

  /** What one record promises: its bracket holds the local instant, its uncertainty the real one. */
  predicate Honest(e: Event) {
    && e.record.Before() as real <= e.local <= e.record.After() as real
    && (e.record.uncertainty.Some? ==>
      Magnitude(e.happened - e.record.at as real) <= e.record.uncertainty.value)
  }

  /** One process takes its snapshots one after the other and reports the middle of each. */
  predicate SnapshotsInOrder(a: Event, b: Event) {
    && a.record.After() <= b.record.Before()
    && a.happened < b.happened
  }

  predicate Midpoint(r: Record) {
    r.monotonic == (r.Before() + r.After()) / 2
  }

  /** What two records promise together: a shared monotonic clock runs forward, and without one a
      process does not take two snapshots at once. */
  predicate Consistent(a: Event, b: Event) {
    && (SameDomain(a.record, b.record) ==>
      && (a.local < b.local ==> a.happened < b.happened)
      && (b.local < a.local ==> b.happened < a.happened))
    && (!SameDomain(a.record, b.record) && SameProcess(a.record, b.record) ==>
      && Midpoint(a.record) && Midpoint(b.record)
      && (SnapshotsInOrder(a, b) || SnapshotsInOrder(b, a)))
  }

  /** Two snapshots of one process that cannot be told apart, on no shared clock. */
  predicate Tied(a: Record, b: Record) {
    !SameDomain(a, b) && SameProcess(a, b) && a.monotonic == b.monotonic
  }

  /** A definite answer is true of real time, except that a tie inside one process reads "no". */
  lemma BeforeIsTrue(a: Event, b: Event)
    requires Honest(a) && Honest(b) && Consistent(a, b)
    ensures Before(a.record, b.record) == Some(true) ==> a.happened < b.happened
    ensures Before(a.record, b.record) == Some(false) && !Tied(a.record, b.record) ==> b.happened < a.happened
  {
    var first, second := a.record, b.record;
    if SameDomain(first, second) {
      assert first.After() < second.Before() ==> a.local < b.local;
      assert first.Before() > second.After() ==> b.local < a.local;
    } else if SameProcess(first, second) {
      assert SnapshotsInOrder(a, b) ==> first.monotonic <= second.monotonic;
      assert SnapshotsInOrder(b, a) ==> second.monotonic <= first.monotonic;
    }
  }

  /** Brackets that do not run backwards and uncertainties that are not negative. */
  predicate Readable(r: Record) {
    r.Before() <= r.After() && (r.uncertainty.Some? ==> r.uncertainty.value >= 0.0)
  }

  /** Asked the other way round, a definite answer turns over; only a tie reads "no" both ways. */
  lemma AnswersMirror(a: Record, b: Record)
    requires Readable(a) && Readable(b)
    ensures Before(a, b) == Some(true) ==> Before(b, a) == Some(false)
    ensures Before(a, b) == Before(b, a) == Some(false) <==> Tied(a, b)
    ensures Before(a, b) == Some(false) && !Tied(a, b) ==> Before(b, a) == Some(true)
  {
    assert SameDomain(a, b) == SameDomain(b, a) && SameProcess(a, b) == SameProcess(b, a);
  }

  /** Each record is said to come before the next. */
  predicate Chain(events: seq<Event>) {
    forall i | 0 < i < |events| :: Before(events[i - 1].record, events[i].record) == Some(true)
  }

  ghost predicate Truthful(events: seq<Event>) {
    && (forall e | e in events :: Honest(e))
    && (forall a, b | a in events && b in events && a.record != b.record :: Consistent(a, b))
  }

  lemma {:induction false} ChainsRunForward(events: seq<Event>)
    requires Truthful(events) && Chain(events) && |events| > 1
    ensures events[0].happened < events[|events| - 1].happened
  {
    var n := |events|;
    var a, b := events[n - 2], events[n - 1];
    assert Before(events[n - 1 - 1].record, events[n - 1].record) == Some(true);
    DifferentRecords(a, b);
    BeforeIsTrue(a, b);
    if n > 2 {
      ChainsRunForward(events[..n - 1]);
    }
  }

  /** Nothing honest is before itself. */
  lemma DifferentRecords(a: Event, b: Event)
    requires Honest(a) && Honest(b) && Before(a.record, b.record) == Some(true)
    ensures a.record != b.record
  {
    assert a.record.uncertainty.Some? ==> a.record.uncertainty.value >= 0.0;
  }

  /** However the three rules mix along a chain, it never closes into a cycle. */
  lemma BeforeIsAcyclic(events: seq<Event>)
    requires Truthful(events) && Chain(events) && events != []
    ensures Before(events[|events| - 1].record, events[0].record) != Some(true)
  {
    var first, last := events[0], events[|events| - 1];
    if Before(last.record, first.record) == Some(true) {
      DifferentRecords(last, first);
      BeforeIsTrue(last, first);
      ChainsRunForward(events);
      assert false;
    }
  }

  /** Honesty is what rules cycles out: the rules themselves admit one when a wall clock is wrong. */
  lemma DishonestClocksCanCycle()
    ensures exists a: Record, b: Record, c: Record ::
              Before(a, b) == Some(true) && Before(b, c) == Some(true) && Before(c, a) == Some(true)
  {
    var a := Record("writer", "1", "boot", 0, None, None, 9_000, Some(0.0));
    var b := Record("validator", "2", "boot", 1, None, None, 1_000, Some(0.0));
    var c := Record("agent", "3", "other", 0, None, None, 5_000, Some(0.0));
    assert Before(a, b) == Some(true) && Before(b, c) == Some(true) && Before(c, a) == Some(true);
  }

  /** One process's monotonic clock measures the time between two of its own instants, and its
      records report the middles of their brackets. */
  predicate SameProcessMeasures(a: Event, b: Event) {
    SameProcess(a.record, b.record) ==>
      && Midpoint(a.record) && Midpoint(b.record)
      && a.happened - b.happened == a.local - b.local
  }

  function Width(r: Record): int {
    r.After() - r.Before()
  }

  /** How far the distance of two middles may be from that of the instants inside one process. */
  function Blur(a: Record, b: Record): real {
    if SameProcess(a, b) then (Width(a) + Width(b)) as real / 2.0 + 1.0 else 0.0
  }

  /** A middle is within half its bracket, and half a nanosecond of rounding, of the instant. */
  lemma MiddleIsNear(e: Event)
    requires Honest(e) && Midpoint(e.record)
    ensures Magnitude(e.local - e.record.monotonic as real) <= Width(e.record) as real / 2.0 + 0.5
  {
    var sum := e.record.Before() + e.record.After();
    assert 2 * e.record.monotonic <= sum <= 2 * e.record.monotonic + 1;
    assert e.record.monotonic as real <= sum as real / 2.0 <= e.record.monotonic as real + 0.5;
  }

  /** Between processes a definite window answer is true of the real distance; inside one process,
      up to half of the two brackets and a nanosecond. */
  lemma WithinWindowIsTrue(a: Event, b: Event, window: real)
    requires Honest(a) && Honest(b) && SameProcessMeasures(a, b)
    ensures WithinWindow(a.record, b.record, window) == Some(true) ==>
              Magnitude(a.happened - b.happened) <= window + Blur(a.record, b.record)
    ensures WithinWindow(a.record, b.record, window) == Some(false) ==>
              Magnitude(a.happened - b.happened) > window - Blur(a.record, b.record)
  {
    if SameProcess(a.record, b.record) {
      MiddleIsNear(a);
      MiddleIsNear(b);
    }
  }

  predicate Inside(r: Record, local: real) {
    r.Before() as real <= local <= r.After() as real
  }

  function Farthest(a: Record, b: Record): int {
    if a.After() - b.Before() > b.After() - a.Before() then a.After() - b.Before() else b.After() - a.Before()
  }

  /** The gap between two brackets, none if they overlap. */
  function Nearest(a: Record, b: Record): int {
    if a.After() < b.Before() then b.Before() - a.After()
    else if b.After() < a.Before() then a.Before() - b.After()
    else 0
  }

  /** Inside one process the brackets decide: "within" is true whatever the instants were exactly
      when their farthest ends are, and "beyond" exactly when their gap is. */
  lemma BracketsDecideTheWindow(a: Record, b: Record, window: real)
    requires a.Before() <= a.After() && b.Before() <= b.After()
    ensures Farthest(a, b) as real <= window <==>
              (forall x, y | Inside(a, x) && Inside(b, y) :: Magnitude(x - y) <= window)
    ensures Nearest(a, b) as real > window <==>
              (forall x, y | Inside(a, x) && Inside(b, y) :: Magnitude(x - y) > window)
  {
    var (x, y) := FarEnds(a, b);
    var (u, v) := NearEnds(a, b);
    assert Inside(a, x) && Inside(b, y) && Inside(a, u) && Inside(b, v);
  }

  /** The order is told exactly when it is certain: on a shared clock whatever the instants in the brackets
      were, and between processes whatever the instants within the uncertainties were. */
  lemma BeforeIsExact(a: Record, b: Record)
    requires Readable(a) && Readable(b)
    ensures SameDomain(a, b) ==>
              && (Before(a, b) == Some(true) <==> forall x, y | Inside(a, x) && Inside(b, y) :: x < y)
              && (Before(a, b) == Some(false) <==> forall x, y | Inside(a, x) && Inside(b, y) :: x > y)
    ensures !SameDomain(a, b) && !SameProcess(a, b) && a.uncertainty.Some? && b.uncertainty.Some? ==>
              && (Before(a, b) == Some(true) <==> forall x, y | Stands(a, x) && Stands(b, y) :: x < y)
              && (Before(a, b) == Some(false) <==> forall x, y | Stands(a, x) && Stands(b, y) :: x > y)
    ensures !SameDomain(a, b) && !SameProcess(a, b) && (a.uncertainty.None? || b.uncertainty.None?) ==> Before(a, b) == None
  {
    assert Inside(a, a.Before() as real) && Inside(a, a.After() as real);
    assert Inside(b, b.Before() as real) && Inside(b, b.After() as real);
    if a.uncertainty.Some? && b.uncertainty.Some? {
      assert Stands(a, a.at as real + a.uncertainty.value) && Stands(a, a.at as real - a.uncertainty.value);
      assert Stands(b, b.at as real + b.uncertainty.value) && Stands(b, b.at as real - b.uncertainty.value);
    }
  }

  /** An instant within the record's stated uncertainty. */
  predicate Stands(r: Record, instant: real) {
    r.uncertainty.Some? && r.at as real - r.uncertainty.value <= instant <= r.at as real + r.uncertainty.value
  }

  /** Between processes, "within" is told exactly when it holds of all the instants the two records may
      stand for, and "beyond" exactly when it does not hold of any. */
  lemma WindowIsExact(a: Record, b: Record, window: real)
    requires Readable(a) && Readable(b) && window >= 0.0 && !SameProcess(a, b)
    ensures a.uncertainty.None? || b.uncertainty.None? ==> WithinWindow(a, b, window) == None
    ensures a.uncertainty.Some? && b.uncertainty.Some? ==>
              && (WithinWindow(a, b, window) == Some(true) <==>
                    forall x, y | Stands(a, x) && Stands(b, y) :: -window <= x - y <= window)
              && (WithinWindow(a, b, window) == Some(false) <==>
                    forall x, y | Stands(a, x) && Stands(b, y) :: x - y < -window || x - y > window)
  {
    if a.uncertainty.Some? && b.uncertainty.Some? {
      var aLow, aHigh := a.at as real - a.uncertainty.value, a.at as real + a.uncertainty.value;
      var bLow, bHigh := b.at as real - b.uncertainty.value, b.at as real + b.uncertainty.value;
      assert Stands(a, aLow) && Stands(a, aHigh) && Stands(b, bLow) && Stands(b, bHigh);
      var shared := if aLow < bLow then bLow else aLow;
      assert aLow <= bHigh && bLow <= aHigh ==> Stands(a, shared) && Stands(b, shared);
    }
  }

  function FarEnds(a: Record, b: Record): (ends: (real, real))
    requires a.Before() <= a.After() && b.Before() <= b.After()
    ensures Inside(a, ends.0) && Inside(b, ends.1) && Magnitude(ends.0 - ends.1) == Farthest(a, b) as real
  {
    if a.After() - b.Before() > b.After() - a.Before() then (a.After() as real, b.Before() as real)
    else (a.Before() as real, b.After() as real)
  }

  function NearEnds(a: Record, b: Record): (ends: (real, real))
    requires a.Before() <= a.After() && b.Before() <= b.After()
    ensures Inside(a, ends.0) && Inside(b, ends.1) && Magnitude(ends.0 - ends.1) == Nearest(a, b) as real
  {
    if a.After() < b.Before() then (a.After() as real, b.Before() as real)
    else if b.After() < a.Before() then (a.Before() as real, b.After() as real)
    else
      var shared := if a.Before() < b.Before() then b.Before() else a.Before();
      (shared as real, shared as real)
  }

  /** A witness that middles can mislead: instants 110 ns apart in brackets whose middles are 100
      apart are called within 100. */
  lemma MiddlesCanMislead()
    ensures exists a: Event, b: Event ::
              && Honest(a) && Honest(b) && Consistent(a, b) && SameProcessMeasures(a, b)
              && WithinWindow(a.record, b.record, 100.0) == Some(true) && Magnitude(a.happened - b.happened) > 100.0
  {
    var a := Event(Record("writer", "1", "boot", 5, Some(0), Some(10), 0, None), 0.0, 0.0);
    var b := Event(Record("writer", "1", "boot", 105, Some(100), Some(110), 0, None), 110.0, 110.0);
    assert Honest(a) && Honest(b) && Consistent(a, b) && SameProcessMeasures(a, b);
  }

  /** The instants a record may stand for. */
  predicate Possible(at: int, uncertainty: real, instant: real) {
    Magnitude(instant - at as real) <= uncertainty
  }

  /** The deadline check passes exactly when every instant the record may stand for is on time, and
      fails exactly when every one is late. */
  lemma DeadlineStatusIsExact(at: int, uncertainty: real, deadline: int)
    requires uncertainty >= 0.0
    ensures DeadlineStatus(at, Some(uncertainty), deadline) == Pass <==>
              (forall t | Possible(at, uncertainty, t) :: t <= deadline as real)
    ensures DeadlineStatus(at, Some(uncertainty), deadline) == Fail <==>
              (forall t | Possible(at, uncertainty, t) :: t > deadline as real)
  {
    assert Possible(at, uncertainty, at as real + uncertainty);
    assert Possible(at, uncertainty, at as real - uncertainty);
  }

  /** From probes to verdict: a passed deadline check on a calibrated write is true of real time. */
  lemma CalibratedDeadlineIsTrue(record: Stamp, start: Probe, end: Probe, samples: seq<Host>,
                                 first: Meeting, second: Meeting, slow: nat, slowLook: Look, fast: nat, fastLook: Look,
                                 local: real, offset: real, wallOffset: real, deadline: int)
    requires Calibrate(record, start, end, samples).Success?
    requires Met(start, first) && Met(end, second)
    requires first.Offset() <= offset <= second.Offset() || second.Offset() <= offset <= first.Offset()
    requires slow < |Hosts(start, end, samples)| && Looked(Hosts(start, end, samples)[slow], slowLook)
    requires fast < |Hosts(start, end, samples)| && Looked(Hosts(start, end, samples)[fast], fastLook)
    requires slowLook.Offset() <= wallOffset <= fastLook.Offset()
    requires record.before as real <= local <= record.after as real
    ensures var c := Calibrate(record, start, end, samples).value;
            && (DeadlineStatus(c.at, Some(c.uncertainty), deadline) == Pass ==>
                 local + offset + wallOffset <= deadline as real)
            && (DeadlineStatus(c.at, Some(c.uncertainty), deadline) == Fail ==>
                 local + offset + wallOffset > deadline as real)
  {
    EnvelopeIsSound(record, start, end, samples, first, second, slow, slowLook, fast, fastLook,
                    local, offset, wallOffset);
  }
}
