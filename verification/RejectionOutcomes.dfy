/** What becomes of each open rejection at each event, exactly: overdue, closed by a result, shown by
    the equipment's own readings, or still open. */
module RejectionOutcomes {
  import opened Common
  import opened RejectionTracker

  // ----- the readings kept are the latest -----

  ghost predicate Latest(last: Option<Reading>, sensed: set<Reading>) {
    && (last.None? <==> sensed == {})
    && (last.Some? ==> last.value in sensed && forall x | x in sensed :: x.at <= last.value.at)
  }

  lemma SensingKeepsLatest(last: Option<Reading>, sensed: set<Reading>, value: int, at: Time)
    requires Latest(last, sensed)
    ensures Latest(Newer(last, value, at), sensed + {Reading(value, at)})
  {
  }

  /** No rejection stays open that the readings already show. */
  ghost predicate NoneShown(t: Tracker) {
    t.bottle.Some? && t.count.Some? ==> forall k | k in t.pending :: !Shown(t.pending[k], t.bottle.value, t.count.value)
  }

  ghost predicate Current(w: World) {
    NoneShown(w.tracker) && Latest(w.tracker.bottle, w.bottles) && Latest(w.tracker.count, w.counts)
  }

  lemma StepKeepsCurrent(capacity: nat, w: World, e: Event)
    requires Current(w)
    ensures Current(Step(capacity, w, e))
  {
    if e.Sense? {
      SensingKeepsLatest(if e.kind == Bottle then w.tracker.bottle else w.tracker.count,
                         if e.kind == Bottle then w.bottles else w.counts, e.value, e.at);
    }
  }

  lemma {:induction false} RunKeepsCurrent(capacity: nat, events: seq<Event>)
    ensures Current(Run(capacity, events))
  {
    if events != [] {
      RunKeepsCurrent(capacity, events[..|events| - 1]);
      StepKeepsCurrent(capacity, Run(capacity, events[..|events| - 1]), events[|events| - 1]);
    }
  }

  /** The readings the tracker compares with are the latest of those ever sensed. */
  lemma ReadingsAreLatest(capacity: nat, events: seq<Event>)
    ensures var w := Run(capacity, events); Latest(w.tracker.bottle, w.bottles) && Latest(w.tracker.count, w.counts)
  {
    RunKeepsCurrent(capacity, events);
  }

  // ----- the fate of an open rejection -----

  /** More than ten seconds past its command's deadline when this event comes. */
  predicate Late(e: Event, entry: Entry) {
    !e.Track? && e.now > entry.request.deadline + 10 * SECOND
  }

  /** This event is the writer's result for the rejection. */
  predicate Concerns(e: Event, key: string) {
    e.Hear? && e.key == key && e.verdict != Pending
  }

  predicate Acknowledges(e: Event, key: string) {
    Concerns(e, key) && e.verdict == Approve && e.writtenAt.Some?
  }

  /** Both latest readings were taken no earlier than the request and show its bottle and a count
      above its baseline. */
  predicate Fitting(entry: Entry, bottle: Option<Reading>, count: Option<Reading>) {
    && bottle.Some? && count.Some?
    && bottle.value.value == entry.inspection.bottle && count.value.value > entry.baseline
    && bottle.value.at >= entry.request.requestedAt && count.value.at >= entry.request.requestedAt
  }

  function ReadingAfter(last: Option<Reading>, e: Event, kind: Kind): Option<Reading> {
    if e.Sense? && e.kind == kind && (last.None? || e.at >= last.value.at) then Some(Reading(e.value, e.at)) else last
  }

  /** How the event ends this rejection, if it does. */
  function Fate(t: Tracker, e: Event, key: string, entry: Entry): Option<Outcome> {
    if Late(e, entry) then Some(Unknown)
    else if Concerns(e, key) && !Acknowledges(e, key) then Some(if e.verdict == Indeterminate then Unknown else NotConfirmed)
    else if (entry.acknowledged || Acknowledges(e, key))
            && Fitting(entry, ReadingAfter(t.bottle, e, Bottle), ReadingAfter(t.count, e, Count)) then Some(Confirmed)
    else None
  }

  /** The rejection has met this fate: reported so and no longer open, or open as it was but for a new
      acknowledgement. */
  predicate Met(n: World, e: Event, key: string, entry: Entry, fate: Option<Outcome>) {
    match fate
    case Some(outcome) => key !in n.tracker.pending && key in n.reported && n.reported[key] == outcome
    case None =>
      && key !in n.reported
      && key in n.tracker.pending
      && n.tracker.pending[key] == entry.(acknowledged := entry.acknowledged || Acknowledges(e, key))
  }

  lemma SweepMeets(t: Tracker, now: Time, key: string)
    requires key in t.pending
    ensures var s := Sweep(t, now);
            && s.tracker.bottle == t.bottle && s.tracker.count == t.count
            && if now > t.pending[key].request.deadline + 10 * SECOND
               then key !in s.tracker.pending && key in s.reports && s.reports[key] == Unknown
               else key !in s.reports && key in s.tracker.pending && s.tracker.pending[key] == t.pending[key]
  {
  }

  lemma SettleMeets(t: Tracker, key: string)
    requires key in t.pending
    ensures var s := Settle(t);
            if t.pending[key].acknowledged && Fitting(t.pending[key], t.bottle, t.count)
            then key !in s.tracker.pending && key in s.reports && s.reports[key] == Confirmed
            else key !in s.reports && key in s.tracker.pending && s.tracker.pending[key] == t.pending[key]
  {
  }

  /** What one operation does to one open rejection. */
  predicate Ends(effect: Effect, key: string, entry: Entry, fate: Option<Outcome>) {
    match fate
    case Some(outcome) => key !in effect.tracker.pending && key in effect.reports && effect.reports[key] == outcome
    case None => key !in effect.reports && key in effect.tracker.pending && effect.tracker.pending[key] == entry
  }

  lemma GoneStaysGone(t: Tracker, key: string)
    requires key !in t.pending
    ensures key !in Settle(t).tracker.pending && key !in Settle(t).reports
  {
  }

  lemma AnswerMeets(t: Tracker, e: Event, key: string)
    requires key in t.pending && e.Hear? && e.key in t.pending && e.verdict != Pending
    ensures var a := Answer(t, e.key, e.verdict, e.writtenAt);
            var entry := t.pending[key];
            && a.tracker.bottle == t.bottle && a.tracker.count == t.count
            && if Concerns(e, key) && !Acknowledges(e, key)
               then Ends(a, key, entry, Some(if e.verdict == Indeterminate then Unknown else NotConfirmed))
               else Ends(a, key, entry.(acknowledged := entry.acknowledged || Acknowledges(e, key)), None)
  {
  }

  lemma ResultMeets(t: Tracker, e: Event, key: string)
    requires key in t.pending && NoneShown(t) && e.Hear?
    ensures Ends(OnResult(t, e.key, e.verdict, e.writtenAt, e.now), key,
                 t.pending[key].(acknowledged := t.pending[key].acknowledged || Acknowledges(e, key)),
                 Fate(t, e, key, t.pending[key]))
  {
    var swept := Sweep(t, e.now);
    SweepMeets(t, e.now, key);
    if e.key in swept.tracker.pending && e.verdict != Pending {
      var a := Answer(swept.tracker, e.key, e.verdict, e.writtenAt);
      if key in swept.tracker.pending {
        AnswerMeets(swept.tracker, e, key);
      }
      if key in a.tracker.pending {
        SettleMeets(a.tracker, key);
      } else {
        GoneStaysGone(a.tracker, key);
      }
    }
  }

  lemma FeedbackMeets(t: Tracker, e: Event, key: string)
    requires key in t.pending && e.Sense?
    ensures Ends(OnFeedback(t, e.kind, e.value, e.at, e.now), key, t.pending[key], Fate(t, e, key, t.pending[key]))
  {
    var swept := Sweep(t, e.now);
    SweepMeets(t, e.now, key);
    var told := if e.kind == Bottle then swept.tracker.(bottle := Newer(swept.tracker.bottle, e.value, e.at))
                else swept.tracker.(count := Newer(swept.tracker.count, e.value, e.at));
    if key in told.pending {
      SettleMeets(told, key);
    } else {
      GoneStaysGone(told, key);
    }
  }

  lemma ApplyingMeets(w: World, effect: Effect, e: Event, key: string, entry: Entry, fate: Option<Outcome>)
    requires key !in w.reported
    requires Ends(effect, key, entry.(acknowledged := entry.acknowledged || Acknowledges(e, key)), fate)
    ensures Met(Apply(w, effect), e, key, entry, fate)
  {
  }

  lemma TrackMeets(capacity: nat, w: World, e: Event, key: string)
    requires e.Track? && key in w.tracker.pending && key in w.tracked && key !in w.reported && NoneShown(w.tracker)
    ensures Met(Step(capacity, w, e), e, key, w.tracker.pending[key], Fate(w.tracker, e, key, w.tracker.pending[key]))
  {
  }

  lemma HearMeets(capacity: nat, w: World, e: Event, key: string)
    requires e.Hear? && key in w.tracker.pending && key !in w.reported && NoneShown(w.tracker)
    ensures Met(Step(capacity, w, e), e, key, w.tracker.pending[key], Fate(w.tracker, e, key, w.tracker.pending[key]))
  {
    var entry := w.tracker.pending[key];
    ResultMeets(w.tracker, e, key);
    ApplyingMeets(w.(acked := AckedBy(w, e.key, e.verdict, e.writtenAt)),
                  OnResult(w.tracker, e.key, e.verdict, e.writtenAt, e.now), e, key, entry, Fate(w.tracker, e, key, entry));
  }

  lemma SenseMeets(capacity: nat, w: World, told: World, e: Event, key: string)
    requires e.Sense? && key in w.tracker.pending && key !in w.reported
    requires told == w.(bottles := if e.kind == Bottle then w.bottles + {Reading(e.value, e.at)} else w.bottles,
                        counts := if e.kind == Count then w.counts + {Reading(e.value, e.at)} else w.counts)
    ensures Met(Step(capacity, w, e), e, key, w.tracker.pending[key], Fate(w.tracker, e, key, w.tracker.pending[key]))
  {
    var entry := w.tracker.pending[key];
    FeedbackMeets(w.tracker, e, key);
    ApplyingMeets(told, OnFeedback(w.tracker, e.kind, e.value, e.at, e.now), e, key, entry, Fate(w.tracker, e, key, entry));
  }

  lemma TickMeets(capacity: nat, w: World, e: Event, key: string)
    requires e.Tick? && key in w.tracker.pending && key !in w.reported && NoneShown(w.tracker)
    ensures Met(Step(capacity, w, e), e, key, w.tracker.pending[key], Fate(w.tracker, e, key, w.tracker.pending[key]))
  {
    SweepMeets(w.tracker, e.now, key);
  }

  /** In every run each event does to each open rejection exactly this: overdue by ten seconds it ends
      unknown; a result that neither acknowledges nor defers ends it unknown or not confirmed, by its
      decision; acknowledged, and shown by the latest readings, it ends confirmed; and otherwise it
      stays open. */
  lemma OpenRejectionsMeetTheirFate(capacity: nat, events: seq<Event>, e: Event, key: string, w: World, n: World)
    requires w == Run(capacity, events) && n == Step(capacity, w, e) && key in w.tracker.pending
    ensures Met(n, e, key, w.tracker.pending[key], Fate(w.tracker, e, key, w.tracker.pending[key]))
  {
    RunKeeps(capacity, events);
    RunKeepsCurrent(capacity, events);
    match e
    case Track(_, _, _) => TrackMeets(capacity, w, e, key);
    case Tick(_) => TickMeets(capacity, w, e, key);
    case Hear(_, _, _, _) => HearMeets(capacity, w, e, key);
    case Sense(_, _, _, _) =>
      SenseMeets(capacity, w, w.(bottles := if e.kind == Bottle then w.bottles + {Reading(e.value, e.at)} else w.bottles,
                                 counts := if e.kind == Count then w.counts + {Reading(e.value, e.at)} else w.counts), e, key);
  }
}
