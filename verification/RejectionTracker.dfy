/** Open rejections waiting for evidence: every one of them ends in exactly one outcome. */
module RejectionTracker {
  import opened Common
  import opened Authorization
  import opened InspectionCodec

  datatype Entry = Entry(request: Command, inspection: Inspection, baseline: int, acknowledged: bool)

  datatype Outcome = Confirmed | NotConfirmed | Unknown

  datatype Kind = Bottle | Count

  datatype Reading = Reading(value: int, at: Time)

  datatype Verdict = Approve | Pending | Indeterminate | Other

  type Entries = map<string, Entry>

  const GRACE: Time := 10 * SECOND

  predicate Overdue(e: Entry, now: Time) {
    now > e.request.deadline + GRACE
  }

  /** Both readings, taken no earlier than the request, show this bottle and a count above the
      baseline after the writer's acknowledgement. */
  predicate Shown(e: Entry, bottle: Reading, count: Reading) {
    && e.acknowledged
    && bottle.value == e.inspection.bottle && count.value > e.baseline
    && bottle.at >= e.request.requestedAt && count.at >= e.request.requestedAt
  }

  /** The keys an operation reports, each with its one outcome. */
  type Reports = map<string, Outcome>

  function Without(entries: Entries, keys: set<string>): Entries {
    map k | k in entries && k !in keys :: entries[k]
  }

  function Expired(entries: Entries, now: Time): Reports {
    map k | k in entries && Overdue(entries[k], now) :: Unknown
  }

  function ConfirmedNow(entries: Entries, bottle: Option<Reading>, count: Option<Reading>): Reports {
    map k | k in entries && bottle.Some? && count.Some? && Shown(entries[k], bottle.value, count.value) :: Confirmed
  }

  function Acknowledged(entries: Entries, key: string, verdict: Verdict, writtenAt: Option<Time>): Entries {
    if key in entries && verdict == Approve && writtenAt.Some?
    then entries[key := entries[key].(acknowledged := true)] else entries
  }

  /** A result that neither acknowledges nor defers closes its rejection at once. */
  function Closed(entries: Entries, key: string, verdict: Verdict, writtenAt: Option<Time>): Reports {
    if key !in entries || verdict == Pending || (verdict == Approve && writtenAt.Some?) then map[]
    else map[key := if verdict == Indeterminate then Unknown else NotConfirmed]
  }

  function Newer(last: Option<Reading>, value: int, at: Time): Option<Reading> {
    if last.None? || at >= last.value.at then Some(Reading(value, at)) else last
  }

  datatype Tracker = Tracker(pending: Entries, bottle: Option<Reading>, count: Option<Reading>)

  datatype Effect = Effect(tracker: Tracker, reports: Reports)

  function Sweep(t: Tracker, now: Time): Effect {
    var reports := Expired(t.pending, now);
    Effect(t.(pending := Without(t.pending, reports.Keys)), reports)
  }

  function Settle(t: Tracker): Effect {
    var reports := ConfirmedNow(t.pending, t.bottle, t.count);
    Effect(t.(pending := Without(t.pending, reports.Keys)), reports)
  }

  function Then(a: Effect, b: Effect): Effect {
    Effect(b.tracker, a.reports + b.reports)
  }

  function Answer(t: Tracker, key: string, verdict: Verdict, writtenAt: Option<Time>): Effect {
    var reports := Closed(t.pending, key, verdict, writtenAt);
    Effect(t.(pending := Without(Acknowledged(t.pending, key, verdict, writtenAt), reports.Keys)), reports)
  }

  function OnResult(t: Tracker, key: string, verdict: Verdict, writtenAt: Option<Time>, now: Time): Effect {
    var swept := Sweep(t, now);
    if key !in swept.tracker.pending || verdict == Pending then swept
    else
      var answered := Then(swept, Answer(swept.tracker, key, verdict, writtenAt));
      Then(answered, Settle(answered.tracker))
  }

  function OnFeedback(t: Tracker, kind: Kind, value: int, at: Time, now: Time): Effect {
    var swept := Sweep(t, now);
    var told := if kind == Bottle then swept.tracker.(bottle := Newer(swept.tracker.bottle, value, at))
                else swept.tracker.(count := Newer(swept.tracker.count, value, at));
    Then(swept, Settle(told))
  }

  lemma AnswerAcknowledges(t: Tracker, key: string, writtenAt: Option<Time>)
    requires key in t.pending && writtenAt.Some?
    ensures Answer(t, key, Approve, writtenAt)
         == Effect(t.(pending := t.pending[key := t.pending[key].(acknowledged := true)]), map[])
  {
    var acknowledged := t.pending[key := t.pending[key].(acknowledged := true)];
    assert Without(acknowledged, {}) == acknowledged;
  }

  lemma AnswerCloses(t: Tracker, key: string, verdict: Verdict, writtenAt: Option<Time>)
    requires key in t.pending && verdict != Pending && !(verdict == Approve && writtenAt.Some?)
    ensures Answer(t, key, verdict, writtenAt)
         == Effect(t.(pending := map k | k in t.pending && k != key :: t.pending[k]),
                   map[key := if verdict == Indeterminate then Unknown else NotConfirmed])
  {
  }

  class RejectionTracker {
    const capacity: nat
    var pending: Entries
    var bottle: Option<Reading>
    var count: Option<Reading>

    constructor (capacity: nat)
      ensures pending == map[] && bottle == count == None && this.capacity == capacity
    {
      this.capacity := capacity;
      pending, bottle, count := map[], None, None;
    }

    method Add(request: Command, inspection: Inspection, baseline: int) returns (r: Result<()>)
      modifies this`pending
      ensures r.Success? <==> |old(pending)| < capacity
      ensures pending == if r.Success? then old(pending)[request.id := Entry(request, inspection, baseline, false)]
                         else old(pending)
    {
      if |pending| >= capacity {
        return Failure("rejection tracker at capacity");
      }
      pending := pending[request.id := Entry(request, inspection, baseline, false)];
      r := Success(());
    }

    method Expire(now: Time) returns (reports: Reports)
      modifies this`pending
      ensures reports == Expired(old(pending), now) && pending == Without(old(pending), reports.Keys)
    {
      reports := map[];
      var keys := pending.Keys;
      ghost var was := pending;
      while keys != {}
        invariant keys <= was.Keys
        invariant forall k | k in reports :: k in was && k !in keys
        invariant forall k | k in was && k !in keys :: k in reports <==> Overdue(was[k], now)
        invariant forall k | k in reports :: reports[k] == Unknown
        invariant pending == Without(was, reports.Keys)
        decreases keys
      {
        var key :| key in keys;
        if now > pending[key].request.deadline + GRACE {
          reports := reports[key := Unknown];
          pending := map k | k in pending && k != key :: pending[k];
        }
        keys := keys - {key};
      }
      assert reports == Expired(was, now);
    }

    method Confirm() returns (reports: Reports)
      modifies this`pending
      ensures reports == ConfirmedNow(old(pending), bottle, count) && pending == Without(old(pending), reports.Keys)
    {
      reports := map[];
      ghost var was := pending;
      if bottle.None? || count.None? {
        assert Without(was, {}) == was;
        return;
      }
      var keys := pending.Keys;
      while keys != {}
        invariant keys <= was.Keys
        invariant forall k | k in reports :: k in was && k !in keys
        invariant forall k | k in was && k !in keys :: k in reports <==> Shown(was[k], bottle.value, count.value)
        invariant forall k | k in reports :: reports[k] == Confirmed
        invariant pending == Without(was, reports.Keys)
        decreases keys
      {
        var key :| key in keys;
        var entry := pending[key];
        if entry.acknowledged && bottle.value.value == entry.inspection.bottle && count.value.value > entry.baseline
           && bottle.value.at >= entry.request.requestedAt && count.value.at >= entry.request.requestedAt {
          reports := reports[key := Confirmed];
          pending := map k | k in pending && k != key :: pending[k];
        }
        keys := keys - {key};
      }
      assert reports == ConfirmedNow(was, bottle, count);
    }

    ghost function State(): Tracker
      reads this
    {
      Tracker(pending, bottle, count)
    }

    method Result(key: string, verdict: Verdict, writtenAt: Option<Time>, now: Time) returns (reports: Reports)
      modifies this`pending
      ensures Effect(State(), reports) == OnResult(old(State()), key, verdict, writtenAt, now)
    {
      reports := Expire(now);
      if key !in pending || verdict == Pending {
        return;
      }
      if verdict == Approve && writtenAt.Some? {
        AnswerAcknowledges(State(), key, writtenAt);
        pending := pending[key := pending[key].(acknowledged := true)];
      } else {
        AnswerCloses(State(), key, verdict, writtenAt);
        reports := reports + map[key := if verdict == Indeterminate then Unknown else NotConfirmed];
        pending := map k | k in pending && k != key :: pending[k];
      }
      var confirmed := Confirm();
      reports := reports + confirmed;
    }

    method Feedback(kind: Kind, value: int, at: Time, now: Time) returns (reports: Reports)
      modifies this
      ensures Effect(State(), reports) == OnFeedback(old(State()), kind, value, at, now)
    {
      reports := Expire(now);
      match kind {
        case Bottle => bottle := Newer(bottle, value, at);
        case Count => count := Newer(count, value, at);
      }
      var confirmed := Confirm();
      reports := reports + confirmed;
    }
  }

  // ----- whole runs -----

  datatype Event =
    | Track(request: Command, inspection: Inspection, baseline: int)
    | Tick(now: Time)
    | Hear(key: string, verdict: Verdict, writtenAt: Option<Time>, now: Time)
    | Sense(kind: Kind, value: int, at: Time, now: Time)

  /** Everything ever tracked, reported, acknowledged by the writer, or sensed. */
  datatype World = World(
    tracker: Tracker,
    tracked: Entries,
    reported: Reports,
    outcomes: nat,
    acked: set<string>,
    bottles: set<Reading>,
    counts: set<Reading>)

  function Apply(w: World, effect: Effect): World {
    w.(tracker := effect.tracker, reported := w.reported + effect.reports, outcomes := w.outcomes + |effect.reports|)
  }

  /** An acknowledgement counts as evidence only for a rejection that was open when it came. */
  function AckedBy(w: World, key: string, verdict: Verdict, writtenAt: Option<Time>): set<string> {
    if key in w.tracker.pending && verdict == Approve && writtenAt.Some? then w.acked + {key} else w.acked
  }

  /** Commands have distinct identities. */
  function Step(capacity: nat, w: World, e: Event): World {
    match e
    case Track(request, inspection, baseline) =>
      if |w.tracker.pending| >= capacity || request.id in w.tracked then w
      else
        var entry := Entry(request, inspection, baseline, false);
        w.(tracker := w.tracker.(pending := w.tracker.pending[request.id := entry]), tracked := w.tracked[request.id := entry])
    case Tick(now) => Apply(w, Sweep(w.tracker, now))
    case Hear(key, verdict, writtenAt, now) =>
      var effect := OnResult(w.tracker, key, verdict, writtenAt, now);
      Apply(w.(acked := AckedBy(w, key, verdict, writtenAt)), effect)
    case Sense(kind, value, at, now) =>
      var effect := OnFeedback(w.tracker, kind, value, at, now);
      Apply(w.(bottles := if kind == Bottle then w.bottles + {Reading(value, at)} else w.bottles,
               counts := if kind == Count then w.counts + {Reading(value, at)} else w.counts), effect)
  }

  /** One writer acknowledgement and one fitting reading of each kind. */
  ghost predicate Proven(w: World, key: string) {
    && key in w.acked && key in w.tracked
    && var e := w.tracked[key];
       && (exists b :: b in w.bottles && b.value == e.inspection.bottle && b.at >= e.request.requestedAt)
       && (exists c :: c in w.counts && c.value > e.baseline && c.at >= e.request.requestedAt)
  }

  predicate SameRejection(a: Entry, b: Entry) {
    a.request == b.request && a.inspection == b.inspection && a.baseline == b.baseline
  }

  /** Tracked is the disjoint union of pending and reported, and every outcome was a first one. */
  ghost predicate Partition(w: World) {
    && w.tracked.Keys == w.tracker.pending.Keys + w.reported.Keys
    && w.tracker.pending.Keys !! w.reported.Keys
    && w.outcomes == |w.reported|
  }

  ghost predicate Grounded(w: World) {
    && (forall k | k in w.tracker.pending ::
          && k in w.tracked && SameRejection(w.tracker.pending[k], w.tracked[k])
          && (w.tracker.pending[k].acknowledged ==> k in w.acked))
    && (w.tracker.bottle.Some? ==> w.tracker.bottle.value in w.bottles)
    && (w.tracker.count.Some? ==> w.tracker.count.value in w.counts)
    && (forall k | k in w.reported && w.reported[k] == Confirmed :: Proven(w, k))
  }

  /** An effect takes out exactly what it reports, and confirms only on evidence. */
  ghost predicate Fair(w: World, effect: Effect) {
    && effect.reports.Keys <= w.tracker.pending.Keys
    && effect.tracker.pending.Keys == w.tracker.pending.Keys - effect.reports.Keys
    && (forall k | k in effect.tracker.pending ::
          && k in w.tracked && SameRejection(effect.tracker.pending[k], w.tracked[k])
          && (effect.tracker.pending[k].acknowledged ==> k in w.acked))
    && (effect.tracker.bottle.Some? ==> effect.tracker.bottle.value in w.bottles)
    && (effect.tracker.count.Some? ==> effect.tracker.count.value in w.counts)
    && (forall k | k in effect.reports && effect.reports[k] == Confirmed :: Proven(w, k))
  }

  lemma MovingKeepsSplit(whole: set<string>, left: set<string>, right: set<string>, moved: set<string>)
    requires whole == left + right && left !! right && moved <= left
    ensures whole == (left - moved) + (right + moved) && (left - moved) !! (right + moved) && right !! moved
  {
  }

  lemma ApplyingKeepsPartition(w: World, effect: Effect)
    requires Partition(w)
    requires effect.reports.Keys <= w.tracker.pending.Keys
    requires effect.tracker.pending.Keys == w.tracker.pending.Keys - effect.reports.Keys
    ensures Partition(Apply(w, effect))
  {
    MovingKeepsSplit(w.tracked.Keys, w.tracker.pending.Keys, w.reported.Keys, effect.reports.Keys);
    DisjointSize(w.reported, effect.reports);
    assert (w.reported + effect.reports).Keys == w.reported.Keys + effect.reports.Keys;
  }

  lemma ApplyingKeepsGrounded(w: World, effect: Effect)
    requires Grounded(w) && Fair(w, effect)
    ensures Grounded(Apply(w, effect))
  {
    var n := Apply(w, effect);
    forall k | k in n.reported && n.reported[k] == Confirmed ensures Proven(n, k) {
      assert Proven(w, k);
    }
  }

  lemma DisjointSize(a: Reports, b: Reports)
    requires a.Keys !! b.Keys
    ensures |a + b| == |a| + |b|
  {
    assert (a + b).Keys == a.Keys + b.Keys;
  }

  lemma ThenIsFair(w: World, a: Effect, b: Effect)
    requires Fair(w, a) && Fair(w.(tracker := a.tracker), b)
    ensures Fair(w, Then(a, b))
  {
    forall k | k in Then(a, b).reports && Then(a, b).reports[k] == Confirmed ensures Proven(w, k) {
      if k in b.reports { assert Proven(w.(tracker := a.tracker), k); }
    }
  }

  lemma SweepIsFair(w: World, now: Time)
    requires Grounded(w)
    ensures Fair(w, Sweep(w.tracker, now))
  {
  }

  lemma SettleIsFair(w: World)
    requires Grounded(w)
    ensures Fair(w, Settle(w.tracker))
  {
  }

  lemma AnswerIsFair(w: World, key: string, verdict: Verdict, writtenAt: Option<Time>)
    requires Grounded(w) && (key in w.tracker.pending && verdict == Approve && writtenAt.Some? ==> key in w.acked)
    ensures Fair(w, Answer(w.tracker, key, verdict, writtenAt))
  {
  }

  lemma FairIsGrounded(w: World, effect: Effect)
    requires Grounded(w) && Fair(w, effect)
    ensures Grounded(w.(tracker := effect.tracker))
  {
    forall k | k in w.reported && w.reported[k] == Confirmed ensures Proven(w.(tracker := effect.tracker), k) {
      assert Proven(w, k);
    }
  }

  lemma ResultIsFair(w: World, key: string, verdict: Verdict, writtenAt: Option<Time>, now: Time)
    requires Grounded(w) && (key in w.tracker.pending && verdict == Approve && writtenAt.Some? ==> key in w.acked)
    ensures Fair(w, OnResult(w.tracker, key, verdict, writtenAt, now))
  {
    var swept := Sweep(w.tracker, now);
    SweepIsFair(w, now);
    if key in swept.tracker.pending && verdict != Pending {
      FairIsGrounded(w, swept);
      var afterSweep := w.(tracker := swept.tracker);
      AnswerIsFair(afterSweep, key, verdict, writtenAt);
      var answer := Answer(swept.tracker, key, verdict, writtenAt);
      FairIsGrounded(afterSweep, answer);
      ThenIsFair(w, swept, answer);
      SettleIsFair(w.(tracker := answer.tracker));
      ThenIsFair(w, Then(swept, answer), Settle(answer.tracker));
    }
  }

  lemma FeedbackIsFair(w: World, kind: Kind, value: int, at: Time, now: Time)
    requires Grounded(w) && Reading(value, at) in (if kind == Bottle then w.bottles else w.counts)
    ensures Fair(w, OnFeedback(w.tracker, kind, value, at, now))
  {
    var swept := Sweep(w.tracker, now);
    SweepIsFair(w, now);
    FairIsGrounded(w, swept);
    var told := if kind == Bottle then swept.tracker.(bottle := Newer(swept.tracker.bottle, value, at))
                else swept.tracker.(count := Newer(swept.tracker.count, value, at));
    assert Fair(w, Effect(told, swept.reports));
    FairIsGrounded(w, Effect(told, swept.reports));
    SettleIsFair(w.(tracker := told));
    ThenIsFair(w, Effect(told, swept.reports), Settle(told));
  }

  lemma WiderEvidenceKeeps(w: World, n: World)
    requires Partition(w) && Grounded(w)
    requires n == w.(acked := n.acked, bottles := n.bottles, counts := n.counts)
    requires w.acked <= n.acked && w.bottles <= n.bottles && w.counts <= n.counts
    ensures Partition(n) && Grounded(n)
  {
    forall k | k in n.reported && n.reported[k] == Confirmed ensures Proven(n, k) {
      assert Proven(w, k);
    }
  }

  lemma TrackingKeepsPartition(capacity: nat, w: World, e: Event)
    requires Partition(w) && e.Track?
    ensures Partition(Step(capacity, w, e))
  {
  }

  lemma StillProven(w: World, n: World, key: string)
    requires Proven(w, key)
    requires n.acked == w.acked && n.bottles == w.bottles && n.counts == w.counts
    requires key in n.tracked && n.tracked[key] == w.tracked[key]
    ensures Proven(n, key)
  {
  }

  lemma TrackingKeepsGrounded(capacity: nat, w: World, e: Event)
    requires Grounded(w) && e.Track?
    ensures Grounded(Step(capacity, w, e))
  {
    var n := Step(capacity, w, e);
    forall k | k in n.reported && n.reported[k] == Confirmed ensures Proven(n, k) {
      StillProven(w, n, k);
    }
  }

  lemma HearingKeeps(w: World, told: World, key: string, verdict: Verdict, writtenAt: Option<Time>, now: Time)
    requires Partition(w) && Grounded(w) && told == w.(acked := AckedBy(w, key, verdict, writtenAt))
    ensures var n := Apply(told, OnResult(w.tracker, key, verdict, writtenAt, now)); Partition(n) && Grounded(n)
  {
    WiderEvidenceKeeps(w, told);
    ResultIsFair(told, key, verdict, writtenAt, now);
    ApplyingKeepsPartition(told, OnResult(w.tracker, key, verdict, writtenAt, now));
    ApplyingKeepsGrounded(told, OnResult(w.tracker, key, verdict, writtenAt, now));
  }

  lemma SensingKeeps(w: World, told: World, kind: Kind, value: int, at: Time, now: Time)
    requires Partition(w) && Grounded(w)
    requires told == w.(bottles := if kind == Bottle then w.bottles + {Reading(value, at)} else w.bottles,
                        counts := if kind == Count then w.counts + {Reading(value, at)} else w.counts)
    ensures var n := Apply(told, OnFeedback(w.tracker, kind, value, at, now)); Partition(n) && Grounded(n)
  {
    WiderEvidenceKeeps(w, told);
    FeedbackIsFair(told, kind, value, at, now);
    ApplyingKeepsPartition(told, OnFeedback(w.tracker, kind, value, at, now));
    ApplyingKeepsGrounded(told, OnFeedback(w.tracker, kind, value, at, now));
  }

  lemma TickingKeeps(w: World, now: Time)
    requires Partition(w) && Grounded(w)
    ensures var n := Apply(w, Sweep(w.tracker, now)); Partition(n) && Grounded(n)
  {
    SweepIsFair(w, now);
    ApplyingKeepsPartition(w, Sweep(w.tracker, now));
    ApplyingKeepsGrounded(w, Sweep(w.tracker, now));
  }

  lemma TrackKeeps(capacity: nat, w: World, e: Event)
    requires Partition(w) && Grounded(w) && e.Track?
    ensures Partition(Step(capacity, w, e)) && Grounded(Step(capacity, w, e))
  {
    TrackingKeepsPartition(capacity, w, e);
    TrackingKeepsGrounded(capacity, w, e);
  }

  lemma TickKeeps(capacity: nat, w: World, e: Event)
    requires Partition(w) && Grounded(w) && e.Tick?
    ensures Partition(Step(capacity, w, e)) && Grounded(Step(capacity, w, e))
  {
    TickingKeeps(w, e.now);
  }

  lemma HearKeeps(capacity: nat, w: World, e: Event)
    requires Partition(w) && Grounded(w) && e.Hear?
    ensures Partition(Step(capacity, w, e)) && Grounded(Step(capacity, w, e))
  {
    HearingKeeps(w, w.(acked := AckedBy(w, e.key, e.verdict, e.writtenAt)), e.key, e.verdict, e.writtenAt, e.now);
  }

  lemma SenseKeeps(capacity: nat, w: World, e: Event)
    requires Partition(w) && Grounded(w) && e.Sense?
    ensures Partition(Step(capacity, w, e)) && Grounded(Step(capacity, w, e))
  {
    SensingKeeps(w, w.(bottles := if e.kind == Bottle then w.bottles + {Reading(e.value, e.at)} else w.bottles,
                       counts := if e.kind == Count then w.counts + {Reading(e.value, e.at)} else w.counts),
                 e.kind, e.value, e.at, e.now);
  }

  lemma StepKeeps(capacity: nat, w: World, e: Event)
    requires Partition(w) && Grounded(w)
    ensures Partition(Step(capacity, w, e)) && Grounded(Step(capacity, w, e))
  {
    match e
    case Track(_, _, _) => TrackKeeps(capacity, w, e);
    case Tick(_) => TickKeeps(capacity, w, e);
    case Hear(_, _, _, _) => HearKeeps(capacity, w, e);
    case Sense(_, _, _, _) => SenseKeeps(capacity, w, e);
  }

  function Run(capacity: nat, events: seq<Event>): World {
    if events == [] then World(Tracker(map[], None, None), map[], map[], 0, {}, {}, {})
    else Step(capacity, Run(capacity, events[..|events| - 1]), events[|events| - 1])
  }

  lemma {:induction false} RunKeeps(capacity: nat, events: seq<Event>)
    ensures Partition(Run(capacity, events)) && Grounded(Run(capacity, events))
  {
    if events != [] {
      RunKeeps(capacity, events[..|events| - 1]);
      StepKeeps(capacity, Run(capacity, events[..|events| - 1]), events[|events| - 1]);
    }
  }

  /** Every tracked rejection is still pending or was reported exactly once. */
  lemma EveryRejectionHasOneOutcome(capacity: nat, events: seq<Event>)
    ensures var w := Run(capacity, events);
            && |w.tracked| == |w.tracker.pending| + w.outcomes
            && forall k | k in w.tracked :: k in w.tracker.pending <==> k !in w.reported
  {
    var w := Run(capacity, events);
    RunKeeps(capacity, events);
    assert |w.tracked.Keys| == |w.tracker.pending.Keys| + |w.reported.Keys|;
  }

  /** A rejection is only reported confirmed after the writer's acknowledgement and readings,
      both no older than the request, of exactly its bottle and of a count above its baseline. */
  lemma ConfirmationHasEvidence(capacity: nat, events: seq<Event>, key: string)
    requires key in Run(capacity, events).reported && Run(capacity, events).reported[key] == Confirmed
    ensures Proven(Run(capacity, events), key)
  {
    RunKeeps(capacity, events);
  }
}
