/** The in-memory inspection rule: a dedup cache that prunes itself on every update, compared with
    judging by everything ever recorded, and exactly when the two judgements differ. */
module InspectionRule {
  import opened Common
  import opened Authorization
  import opened InspectionCodec

  datatype Settings = Settings(enabled: bool, maxAge: Time, capacity: nat, target: string)

  const MARGIN: Time := 10 * SECOND

  datatype Sighting = Sighting(at: Time, event: Inspection)

  datatype Head = Head(sequence: nat, touched: Time, inspectedAt: Time)

  type BottleKey = (nat, nat)

  datatype Memory = Memory(seen: map<InspectionId, Sighting>, bottles: map<BottleKey, Time>, heads: map<nat, Head>)

  datatype Reason =
    | Disabled | InFuture | Stale | InvalidIdentity | Duplicate | IdentityConflict
    | SequenceRegression | CapacityReached | BottleDuplicate | PassedBottle | FailedBottle

  datatype Decision = Decision(accepted: bool, reason: Reason, missing: nat, late: bool)

  const EMPTY: Memory := Memory(map[], map[], map[])

  function KeyOf(e: Inspection): BottleKey {
    (e.id.session, e.bottle)
  }

  function Window(cfg: Settings): Time {
    cfg.maxAge + MARGIN
  }

  function SeenSince(seen: map<InspectionId, Sighting>, cutoff: Time): map<InspectionId, Sighting> {
    map k | k in seen && seen[k].at >= cutoff :: seen[k]
  }

  function BottlesSince(bottles: map<BottleKey, Time>, cutoff: Time): map<BottleKey, Time> {
    map k | k in bottles && bottles[k] >= cutoff :: bottles[k]
  }

  function HeadsSince(heads: map<nat, Head>, cutoff: Time): map<nat, Head> {
    map k | k in heads && heads[k].touched >= cutoff :: heads[k]
  }

  /** What is left of a memory once everything before the cutoff is dropped. */
  function Since(m: Memory, cutoff: Time): Memory {
    Memory(SeenSince(m.seen, cutoff), BottlesSince(m.bottles, cutoff), HeadsSince(m.heads, cutoff))
  }

  predicate Fresh(cfg: Settings, e: Inspection, now: Time) {
    0 <= now - e.at < cfg.maxAge
  }

  /** All that a judgement reads of the memory. */
  datatype View = View(seen: Option<Inspection>, head: Option<Head>, headsFull: bool, bottleSeen: bool, seenFull: bool)

  function Look(cfg: Settings, m: Memory, e: Inspection): View {
    View(if e.id in m.seen then Some(m.seen[e.id].event) else None,
         if e.id.session in m.heads then Some(m.heads[e.id.session]) else None,
         |m.heads| >= cfg.capacity,
         KeyOf(e) in m.bottles,
         |m.seen| >= cfg.capacity)
  }

  predicate IsLate(v: View, e: Inspection) {
    v.head.Some? && e.id.sequence <= v.head.value.sequence
  }

  function Gap(v: View, e: Inspection): nat {
    if v.head.Some? && e.id.sequence > v.head.value.sequence then e.id.sequence - v.head.value.sequence - 1 else 0
  }

  function Refused(reason: Reason): Decision {
    Decision(false, reason, 0, false)
  }

  function Judge(cfg: Settings, v: View, e: Inspection, now: Time): Decision {
    if !cfg.enabled then Refused(Disabled)
    else if now < e.at then Refused(InFuture)
    else if !Fresh(cfg, e, now) then Refused(Stale)
    else if e.id.sequence == 0 then Refused(InvalidIdentity)
    else if v.seen.Some? then Refused(if v.seen.value == e then Duplicate else IdentityConflict)
    else if IsLate(v, e) && e.at > v.head.value.inspectedAt then Refused(SequenceRegression)
    else if v.head.None? && v.headsFull then Refused(CapacityReached)
    else if v.bottleSeen then Decision(false, BottleDuplicate, Gap(v, e), IsLate(v, e))
    else if v.seenFull then Decision(false, CapacityReached, Gap(v, e), IsLate(v, e))
    else Decision(true, if e.passed then PassedBottle else FailedBottle, Gap(v, e), IsLate(v, e))
  }

  /** The session's head moves on every judgement that got past the identity checks. */
  predicate Observes(cfg: Settings, v: View, e: Inspection, now: Time) {
    && cfg.enabled && Fresh(cfg, e, now) && e.id.sequence != 0 && v.seen.None?
    && !(IsLate(v, e) && e.at > v.head.value.inspectedAt)
    && !(v.head.None? && v.headsFull)
  }

  function NewHead(v: View, e: Inspection, now: Time): Head {
    if IsLate(v, e) then v.head.value.(touched := now) else Head(e.id.sequence, now, e.at)
  }

  /** Records into `m` what was judged on the view `v`. */
  function Remember(cfg: Settings, m: Memory, v: View, e: Inspection, now: Time): Memory {
    if !Observes(cfg, v, e, now) then m
    else
      var heads := m.heads[e.id.session := NewHead(v, e, now)];
      if Judge(cfg, v, e, now).accepted
      then Memory(m.seen[e.id := Sighting(now, e)], m.bottles[KeyOf(e) := now], heads)
      else m.(heads := heads)
  }

  predicate Prunes(cfg: Settings, e: Inspection, now: Time) {
    cfg.enabled && Fresh(cfg, e, now)
  }

  function Visible(cfg: Settings, m: Memory, now: Time): Memory {
    Since(m, now - Window(cfg))
  }

  /** The decision on the part of the memory inside the window. */
  function Decided(cfg: Settings, m: Memory, e: Inspection, now: Time): Decision {
    Judge(cfg, Look(cfg, Visible(cfg, m, now), e), e, now)
  }

  /** The source's rule: prune, then judge and record on what is left. */
  function PrunedUpdate(cfg: Settings, m: Memory, e: Inspection, now: Time): Memory {
    var kept := Visible(cfg, m, now);
    if Prunes(cfg, e, now) then Remember(cfg, kept, Look(cfg, kept, e), e, now) else m
  }

  /** The history: whatever the rule records is added, and nothing is ever dropped. */
  function Chronicled(cfg: Settings, history: Memory, e: Inspection, now: Time): Memory {
    Remember(cfg, history, Look(cfg, Visible(cfg, history, now), e), e, now)
  }

  /** The decision of a memory without limits, of age or of size. */
  function JudgedByAll(cfg: Settings, m: Memory, e: Inspection, now: Time): Decision {
    Judge(cfg, Look(cfg, m, e).(headsFull := false, seenFull := false), e, now)
  }

  function Order(cfg: Settings, e: Inspection, now: Time, ulid: string): Command {
    Command(ulid, "decision-agent-stub", cfg.target, "int64", e.bottle, now, e.at + cfg.maxAge)
  }

  /** The command an update returns, if any. */
  function Commanded(cfg: Settings, m: Memory, e: Inspection, now: Time, ulid: string): Option<Command> {
    if Decided(cfg, m, e, now).accepted && !e.passed then Some(Order(cfg, e, now, ulid)) else None
  }

  class InspectionRule {
    const settings: Settings
    var seen: map<InspectionId, Sighting>
    var bottles: map<BottleKey, Time>
    var heads: map<nat, Head>
    var lastDecision: Decision

    ghost function State(): Memory
      reads this
    {
      Memory(seen, bottles, heads)
    }

    constructor (settings: Settings)
      requires settings.capacity > 0
      ensures State() == EMPTY && this.settings == settings
    {
      this.settings := settings;
      seen, bottles, heads := map[], map[], map[];
      lastDecision := Decision(false, Disabled, 0, false);
    }

    method Update(e: Inspection, now: Time, ulid: string) returns (command: Option<Command>)
      modifies this
      ensures State() == PrunedUpdate(settings, old(State()), e, now)
      ensures lastDecision == Decided(settings, old(State()), e, now)
      ensures command == Commanded(settings, old(State()), e, now, ulid)
    {
      command := None;
      lastDecision := Decision(false, Disabled, 0, false);
      if !settings.enabled {
        return;
      }
      var age := now - e.at;
      if !(0 <= age < settings.maxAge) {
        lastDecision := Decision(false, if age < 0 then InFuture else Stale, 0, false);
        return;
      }
      var cutoff := now - (settings.maxAge + MARGIN);
      seen := map k | k in seen && seen[k].at >= cutoff :: seen[k];
      bottles := map k | k in bottles && bottles[k] >= cutoff :: bottles[k];
      heads := map k | k in heads && heads[k].touched >= cutoff :: heads[k];
      command := Decide(e, now, ulid);
    }

    /** What follows the pruning. */
    method Decide(e: Inspection, now: Time, ulid: string) returns (command: Option<Command>)
      requires settings.enabled && Fresh(settings, e, now)
      modifies this
      ensures State() == Remember(settings, old(State()), Look(settings, old(State()), e), e, now)
      ensures lastDecision == Judge(settings, Look(settings, old(State()), e), e, now)
      ensures command == if lastDecision.accepted && !e.passed then Some(Order(settings, e, now, ulid)) else None
    {
      command := None;
      var session, sequence := e.id.session, e.id.sequence;
      if sequence == 0 {
        lastDecision := Decision(false, InvalidIdentity, 0, false);
        return;
      }
      if e.id in seen {
        lastDecision := Decision(false, if seen[e.id].event == e then Duplicate else IdentityConflict, 0, false);
        return;
      }
      var late := session in heads && sequence <= heads[session].sequence;
      if late && e.at > heads[session].inspectedAt {
        lastDecision := Decision(false, SequenceRegression, 0, false);
        return;
      }
      if session !in heads && |heads| >= settings.capacity {
        lastDecision := Decision(false, CapacityReached, 0, false);
        return;
      }
      var gap := 0;
      if session in heads && sequence - heads[session].sequence - 1 > 0 {
        gap := sequence - heads[session].sequence - 1;
      }
      heads := heads[session := if late then Head(heads[session].sequence, now, heads[session].inspectedAt)
                                else Head(sequence, now, e.at)];
      var key := (session, e.bottle);
      if key in bottles {
        lastDecision := Decision(false, BottleDuplicate, gap, late);
        return;
      }
      if |seen| >= settings.capacity {
        lastDecision := Decision(false, CapacityReached, gap, late);
        return;
      }
      seen := seen[e.id := Sighting(now, e)];
      bottles := bottles[key := now];
      lastDecision := Decision(true, if e.passed then PassedBottle else FailedBottle, gap, late);
      if !e.passed {
        command := Some(Command(ulid, "decision-agent-stub", settings.target, "int64", e.bottle, now, e.at + settings.maxAge));
      }
    }
  }

  // ----- the pruned cache against everything ever recorded -----

  datatype Input = Input(event: Inspection, now: Time, ulid: string)

  /** Inputs arrive under a clock that does not run back; admissions and commands are kept for ever. */
  datatype World = World(clock: Time, pruned: Memory, history: Memory, admitted: seq<Sighting>, ordered: seq<Command>)

  predicate Settled(cfg: Settings) {
    cfg.maxAge > 0 && cfg.capacity > 0
  }

  function Step(cfg: Settings, w: World, i: Input): World {
    if i.now < w.clock then w
    else
      World(i.now,
            PrunedUpdate(cfg, w.pruned, i.event, i.now),
            Chronicled(cfg, w.history, i.event, i.now),
            if Decided(cfg, w.pruned, i.event, i.now).accepted then w.admitted + [Sighting(i.now, i.event)] else w.admitted,
            match Commanded(cfg, w.pruned, i.event, i.now, i.ulid)
            case None => w.ordered
            case Some(command) => w.ordered + [command])
  }

  /** Seen inspections and seen bottles are the same admissions, filed two ways. */
  ghost predicate Paired(m: Memory) {
    && (forall id | id in m.seen ::
          && m.seen[id].event.id == id
          && KeyOf(m.seen[id].event) in m.bottles && m.bottles[KeyOf(m.seen[id].event)] == m.seen[id].at)
    && (forall a, b | a in m.seen && b in m.seen && KeyOf(m.seen[a].event) == KeyOf(m.seen[b].event) :: a == b)
    && (forall k | k in m.bottles :: exists id :: id in m.seen && KeyOf(m.seen[id].event) == k)
  }

  ghost predicate AdmissionsKept(cfg: Settings, w: World) {
    && (forall a | a in w.admitted ::
          && Fresh(cfg, a.event, a.at) && a.at <= w.clock && a.event.id.sequence != 0
          && (a.at < w.clock - Window(cfg)
              || (a.event.id in w.pruned.seen && w.pruned.seen[a.event.id] == a)))
    && forall i, j | 0 <= i < j < |w.admitted| ::
         && w.admitted[i].event != w.admitted[j].event
         && (KeyOf(w.admitted[i].event) == KeyOf(w.admitted[j].event) ==>
               w.admitted[i].at + Window(cfg) < w.admitted[j].at)
  }

  ghost predicate Bounded(cfg: Settings, m: Memory) {
    |m.seen| <= cfg.capacity && |m.heads| <= cfg.capacity
  }

  /** No head shows an inspection later than it was touched. */
  ghost predicate HeadsInTime(m: Memory, clock: Time) {
    forall k | k in m.heads :: m.heads[k].inspectedAt <= m.heads[k].touched <= clock
  }

  ghost predicate Inv(cfg: Settings, w: World) {
    && Visible(cfg, w.pruned, w.clock) == Visible(cfg, w.history, w.clock)
    && HeadsInTime(w.history, w.clock)
    && Paired(w.pruned)
    && Bounded(cfg, w.pruned)
    && AdmissionsKept(cfg, w)
  }

  lemma SeenTwice(seen: map<InspectionId, Sighting>, early: Time, late: Time)
    requires early <= late
    ensures SeenSince(SeenSince(seen, early), late) == SeenSince(seen, late)
  {
  }

  lemma BottlesTwice(bottles: map<BottleKey, Time>, early: Time, late: Time)
    requires early <= late
    ensures BottlesSince(BottlesSince(bottles, early), late) == BottlesSince(bottles, late)
  {
  }

  lemma HeadsTwice(heads: map<nat, Head>, early: Time, late: Time)
    requires early <= late
    ensures HeadsSince(HeadsSince(heads, early), late) == HeadsSince(heads, late)
  {
  }

  lemma SinceTwice(m: Memory, early: Time, late: Time)
    requires early <= late
    ensures Since(Since(m, early), late) == Since(m, late)
  {
    SeenTwice(m.seen, early, late);
    BottlesTwice(m.bottles, early, late);
    HeadsTwice(m.heads, early, late);
  }

  lemma SameView(cfg: Settings, a: Memory, b: Memory, early: Time, late: Time)
    requires early <= late && Visible(cfg, a, early) == Visible(cfg, b, early)
    ensures Visible(cfg, a, late) == Visible(cfg, b, late)
  {
    SinceTwice(a, early - Window(cfg), late - Window(cfg));
    SinceTwice(b, early - Window(cfg), late - Window(cfg));
  }

  lemma SeenGains(seen: map<InspectionId, Sighting>, k: InspectionId, s: Sighting, cutoff: Time)
    requires s.at >= cutoff
    ensures SeenSince(seen[k := s], cutoff) == SeenSince(seen, cutoff)[k := s]
  {
  }

  lemma BottlesGain(bottles: map<BottleKey, Time>, k: BottleKey, at: Time, cutoff: Time)
    requires at >= cutoff
    ensures BottlesSince(bottles[k := at], cutoff) == BottlesSince(bottles, cutoff)[k := at]
  {
  }

  lemma HeadsGain(heads: map<nat, Head>, k: nat, h: Head, cutoff: Time)
    requires h.touched >= cutoff
    ensures HeadsSince(heads[k := h], cutoff) == HeadsSince(heads, cutoff)[k := h]
  {
  }

  lemma SmallerMap<K, V>(small: map<K, V>, large: map<K, V>)
    requires small.Keys <= large.Keys
    ensures |small| <= |large|
  {
    Shrinks(small.Keys, large.Keys);
  }

  lemma PruningKeepsPairs(cfg: Settings, m: Memory, kept: Memory, now: Time)
    requires Paired(m) && kept == Visible(cfg, m, now)
    ensures Paired(kept)
  {
    forall k | k in kept.bottles ensures exists id :: id in kept.seen && KeyOf(kept.seen[id].event) == k {
      var id :| id in m.seen && KeyOf(m.seen[id].event) == k;
      assert id in kept.seen;
    }
  }

  lemma PruningKeepsBounds(cfg: Settings, m: Memory, cutoff: Time)
    requires Bounded(cfg, m)
    ensures Bounded(cfg, Since(m, cutoff))
  {
    SmallerMap(SeenSince(m.seen, cutoff), m.seen);
    SmallerMap(HeadsSince(m.heads, cutoff), m.heads);
  }

  lemma AdmissionKeepsPairs(v: Memory, e: Inspection, now: Time, heads: map<nat, Head>)
    requires Paired(v) && e.id !in v.seen && KeyOf(e) !in v.bottles
    ensures Paired(Memory(v.seen[e.id := Sighting(now, e)], v.bottles[KeyOf(e) := now], heads))
  {
    var n := Memory(v.seen[e.id := Sighting(now, e)], v.bottles[KeyOf(e) := now], heads);
    forall k | k in n.bottles ensures exists id :: id in n.seen && KeyOf(n.seen[id].event) == k {
      if k == KeyOf(e) {
        assert KeyOf(n.seen[e.id].event) == k;
      } else {
        var id :| id in v.seen && KeyOf(v.seen[id].event) == k;
        assert n.seen[id] == v.seen[id];
      }
    }
  }

  lemma RememberingKeepsPairs(cfg: Settings, m: Memory, e: Inspection, now: Time)
    requires Paired(m)
    ensures Paired(Remember(cfg, m, Look(cfg, m, e), e, now))
  {
    var v := Look(cfg, m, e);
    if Observes(cfg, v, e, now) && Judge(cfg, v, e, now).accepted {
      AdmissionKeepsPairs(m, e, now, m.heads[e.id.session := NewHead(v, e, now)]);
    }
  }

  lemma OneMore<K, V>(m: map<K, V>, k: K, v: V)
    ensures |m[k := v]| == if k in m then |m| else |m| + 1
  {
    assert m[k := v].Keys == m.Keys + {k};
  }

  lemma RememberingKeepsBounds(cfg: Settings, m: Memory, e: Inspection, now: Time)
    requires Bounded(cfg, m)
    ensures Bounded(cfg, Remember(cfg, m, Look(cfg, m, e), e, now))
  {
    OneMore(m.heads, e.id.session, NewHead(Look(cfg, m, e), e, now));
    OneMore(m.seen, e.id, Sighting(now, e));
  }

  /** Recording into the kept part or into the whole memory shows the same afterwards. */
  lemma SameRecording(cfg: Settings, history: Memory, kept: Memory, v: View, e: Inspection, now: Time)
    requires Settled(cfg) && kept == Visible(cfg, history, now)
    ensures Visible(cfg, Remember(cfg, history, v, e, now), now) == Visible(cfg, Remember(cfg, kept, v, e, now), now)
  {
    var cutoff := now - Window(cfg);
    SinceTwice(history, cutoff, cutoff);
    if Observes(cfg, v, e, now) {
      var h := NewHead(v, e, now);
      HeadsGain(history.heads, e.id.session, h, cutoff);
      HeadsGain(kept.heads, e.id.session, h, cutoff);
      SeenGains(history.seen, e.id, Sighting(now, e), cutoff);
      SeenGains(kept.seen, e.id, Sighting(now, e), cutoff);
      BottlesGain(history.bottles, KeyOf(e), now, cutoff);
      BottlesGain(kept.bottles, KeyOf(e), now, cutoff);
    }
  }

  lemma AcceptedIsUnseen(cfg: Settings, v: View, e: Inspection, now: Time)
    requires Judge(cfg, v, e, now).accepted
    ensures v.seen.None? && !v.bottleSeen && Observes(cfg, v, e, now) && Prunes(cfg, e, now)
  {
  }

  /** What is admitted repeats nothing that was admitted before. */
  lemma AdmissionIsNew(cfg: Settings, m: Memory, a: Sighting, e: Inspection, now: Time)
    requires Paired(m) && Fresh(cfg, a.event, a.at) && a.at <= now
    requires a.at < now - Window(cfg) || (a.event.id in m.seen && m.seen[a.event.id] == a)
    requires Decided(cfg, m, e, now).accepted
    ensures a.event != e && (KeyOf(a.event) == KeyOf(e) ==> a.at + Window(cfg) < now)
  {
    var kept := Visible(cfg, m, now);
    AcceptedIsUnseen(cfg, Look(cfg, kept, e), e, now);
    if a.at >= now - Window(cfg) {
      assert a.event.id in kept.seen && KeyOf(a.event) in kept.bottles;
    }
  }

  /** An admission within the window stays visible through an update. */
  lemma AdmissionStays(cfg: Settings, m: Memory, e: Inspection, now: Time, a: Sighting)
    requires a.event.id in m.seen && m.seen[a.event.id] == a && a.at >= now - Window(cfg)
    ensures var n := PrunedUpdate(cfg, m, e, now); a.event.id in n.seen && n.seen[a.event.id] == a
  {
    var kept := Visible(cfg, m, now);
    assert a.event.id in kept.seen && kept.seen[a.event.id] == a;
    if Judge(cfg, Look(cfg, kept, e), e, now).accepted { AcceptedIsUnseen(cfg, Look(cfg, kept, e), e, now); }
  }

  lemma AdmittedIsSeen(cfg: Settings, m: Memory, e: Inspection, now: Time)
    requires Decided(cfg, m, e, now).accepted
    ensures Fresh(cfg, e, now) && e.id.sequence != 0
    ensures var n := PrunedUpdate(cfg, m, e, now); e.id in n.seen && n.seen[e.id] == Sighting(now, e)
  {
    AcceptedIsUnseen(cfg, Look(cfg, Visible(cfg, m, now), e), e, now);
  }

  lemma AdmittingKeeps(cfg: Settings, w: World, i: Input)
    requires Settled(cfg) && Paired(w.pruned) && AdmissionsKept(cfg, w) && w.clock <= i.now
    ensures AdmissionsKept(cfg, Step(cfg, w, i))
  {
    var n := Step(cfg, w, i);
    var accepted := Decided(cfg, w.pruned, i.event, i.now).accepted;
    if accepted { AdmittedIsSeen(cfg, w.pruned, i.event, i.now); }
    forall a | a in w.admitted
      ensures a.at < i.now - Window(cfg) || (a.event.id in n.pruned.seen && n.pruned.seen[a.event.id] == a)
      ensures accepted ==> a.event != i.event && (KeyOf(a.event) == KeyOf(i.event) ==> a.at + Window(cfg) < i.now)
    {
      if a.at >= i.now - Window(cfg) { AdmissionStays(cfg, w.pruned, i.event, i.now, a); }
      if accepted { AdmissionIsNew(cfg, w.pruned, a, i.event, i.now); }
    }
    AdmissionsExtend(cfg, w, n);
  }

  /** At most one admission is added, and it fits behind the earlier ones. */
  lemma AdmissionsExtend(cfg: Settings, w: World, n: World)
    requires AdmissionsKept(cfg, w) && w.clock <= n.clock
    requires n.admitted == w.admitted
          || (|n.admitted| == |w.admitted| + 1 && n.admitted[..|w.admitted|] == w.admitted
              && var added := n.admitted[|w.admitted|];
                 && Fresh(cfg, added.event, added.at) && added.at == n.clock && added.event.id.sequence != 0
                 && added.event.id in n.pruned.seen && n.pruned.seen[added.event.id] == added
                 && forall a | a in w.admitted ::
                      a.event != added.event && (KeyOf(a.event) == KeyOf(added.event) ==> a.at + Window(cfg) < added.at))
    requires forall a | a in w.admitted ::
      a.at < n.clock - Window(cfg) || (a.event.id in n.pruned.seen && n.pruned.seen[a.event.id] == a)
    ensures AdmissionsKept(cfg, n)
  {
    forall a | a in n.admitted
      ensures a in w.admitted || (n.admitted != w.admitted && a == n.admitted[|w.admitted|])
    {
      var k :| 0 <= k < |n.admitted| && n.admitted[k] == a;
      if k < |w.admitted| { assert w.admitted[k] == a; }
    }
    forall i, j | 0 <= i < j < |n.admitted|
      ensures n.admitted[i].event != n.admitted[j].event
      ensures KeyOf(n.admitted[i].event) == KeyOf(n.admitted[j].event) ==> n.admitted[i].at + Window(cfg) < n.admitted[j].at
    {
      assert n.admitted[i] == w.admitted[i];
      if j < |w.admitted| { assert n.admitted[j] == w.admitted[j]; }
    }
  }

  lemma UnobservedIsUnchanged(cfg: Settings, m: Memory, v: View, e: Inspection, now: Time)
    requires !Prunes(cfg, e, now)
    ensures Remember(cfg, m, v, e, now) == m
  {
  }

  /** The source's rule acts on the kept part only. */
  lemma ActsOnKept(cfg: Settings, m: Memory, kept: Memory, e: Inspection, now: Time)
    requires Prunes(cfg, e, now) && kept == Visible(cfg, m, now)
    ensures PrunedUpdate(cfg, m, e, now) == Remember(cfg, kept, Look(cfg, kept, e), e, now)
  {
  }

  lemma ShowsAsOnKept(cfg: Settings, history: Memory, kept: Memory, e: Inspection, now: Time)
    requires Settled(cfg) && kept == Visible(cfg, history, now)
    ensures Visible(cfg, Chronicled(cfg, history, e, now), now)
         == Visible(cfg, Remember(cfg, kept, Look(cfg, kept, e), e, now), now)
  {
    SameRecording(cfg, history, kept, Look(cfg, kept, e), e, now);
  }

  lemma SameUpdate(cfg: Settings, pruned: Memory, history: Memory, kept: Memory, e: Inspection, now: Time)
    requires Settled(cfg) && kept == Visible(cfg, pruned, now) && kept == Visible(cfg, history, now)
    ensures Visible(cfg, PrunedUpdate(cfg, pruned, e, now), now) == Visible(cfg, Chronicled(cfg, history, e, now), now)
  {
    if Prunes(cfg, e, now) {
      ActsOnKept(cfg, pruned, kept, e, now);
      ShowsAsOnKept(cfg, history, kept, e, now);
    } else {
      UnobservedIsUnchanged(cfg, history, Look(cfg, kept, e), e, now);
    }
  }

  lemma PrunedStepKeepsPairs(cfg: Settings, m: Memory, kept: Memory, e: Inspection, now: Time)
    requires Paired(m) && kept == Visible(cfg, m, now)
    ensures Paired(PrunedUpdate(cfg, m, e, now))
  {
    if Prunes(cfg, e, now) {
      PruningKeepsPairs(cfg, m, kept, now);
      RememberingKeepsPairs(cfg, kept, e, now);
      ActsOnKept(cfg, m, kept, e, now);
    }
  }

  lemma PrunedStepKeepsBounds(cfg: Settings, m: Memory, e: Inspection, now: Time)
    requires Bounded(cfg, m)
    ensures Bounded(cfg, PrunedUpdate(cfg, m, e, now))
  {
    PruningKeepsBounds(cfg, m, now - Window(cfg));
    RememberingKeepsBounds(cfg, Visible(cfg, m, now), e, now);
  }

  lemma StepKeepsInv(cfg: Settings, w: World, i: Input)
    requires Settled(cfg) && Inv(cfg, w)
    ensures Inv(cfg, Step(cfg, w, i))
  {
    if w.clock <= i.now {
      SameView(cfg, w.pruned, w.history, w.clock, i.now);
      SameUpdate(cfg, w.pruned, w.history, Visible(cfg, w.history, i.now), i.event, i.now);
      AdmittingKeeps(cfg, w, i);
      PrunedStepKeepsPairs(cfg, w.pruned, Visible(cfg, w.pruned, i.now), i.event, i.now);
      PrunedStepKeepsBounds(cfg, w.pruned, i.event, i.now);
      ChroniclingKeepsHeads(cfg, w.history, w.clock, i.event, i.now);
    }
  }

  lemma ChroniclingKeepsHeads(cfg: Settings, m: Memory, clock: Time, e: Inspection, now: Time)
    requires HeadsInTime(m, clock) && clock <= now
    ensures HeadsInTime(Chronicled(cfg, m, e, now), now)
  {
  }

  function Run(cfg: Settings, inputs: seq<Input>): World {
    if inputs == [] then World(0, EMPTY, EMPTY, [], [])
    else Step(cfg, Run(cfg, inputs[..|inputs| - 1]), inputs[|inputs| - 1])
  }

  lemma {:induction false} RunKeepsInv(cfg: Settings, inputs: seq<Input>)
    requires Settled(cfg)
    ensures Inv(cfg, Run(cfg, inputs))
  {
    if inputs != [] {
      RunKeepsInv(cfg, inputs[..|inputs| - 1]);
      StepKeepsInv(cfg, Run(cfg, inputs[..|inputs| - 1]), inputs[|inputs| - 1]);
    }
  }

  /** What the cache can show of a run is what the history shows of the window. */
  lemma CacheIsRecentHistory(cfg: Settings, inputs: seq<Input>, now: Time)
    requires Settled(cfg) && Run(cfg, inputs).clock <= now
    ensures Visible(cfg, Run(cfg, inputs).pruned, now) == Visible(cfg, Run(cfg, inputs).history, now)
    ensures HeadsInTime(Run(cfg, inputs).history, now)
  {
    var w := Run(cfg, inputs);
    RunKeepsInv(cfg, inputs);
    SameView(cfg, w.pruned, w.history, w.clock, now);
  }

  /** An event already admitted is never admitted again, whichever memory judges it: while it is
      fresh both call it a duplicate. */
  lemma RepeatsAreDuplicates(cfg: Settings, inputs: seq<Input>, a: Sighting, now: Time)
    requires Settled(cfg) && Run(cfg, inputs).clock <= now && a in Run(cfg, inputs).admitted
    ensures var w := Run(cfg, inputs);
            && Decided(cfg, w.pruned, a.event, now) == JudgedByAll(cfg, w.history, a.event, now)
            && (Prunes(cfg, a.event, now) ==> Decided(cfg, w.pruned, a.event, now) == Refused(Duplicate))
            && !Decided(cfg, w.pruned, a.event, now).accepted
  {
    var w := Run(cfg, inputs);
    RunKeepsInv(cfg, inputs);
    CacheIsRecentHistory(cfg, inputs, now);
    if Prunes(cfg, a.event, now) {
      RecentAdmissionIsShown(cfg, w.pruned, w.history, a, now);
    }
  }

  lemma RecentAdmissionIsShown(cfg: Settings, pruned: Memory, history: Memory, a: Sighting, now: Time)
    requires Visible(cfg, pruned, now) == Visible(cfg, history, now) && a.at >= now - Window(cfg)
    requires a.event.id in pruned.seen && pruned.seen[a.event.id] == a
    ensures a.event.id in Visible(cfg, pruned, now).seen && Visible(cfg, pruned, now).seen[a.event.id] == a
    ensures a.event.id in history.seen && history.seen[a.event.id] == a
  {
    assert a.event.id in Visible(cfg, history, now).seen;
  }

  // ----- exactly when the whole history would have decided otherwise -----

  predicate IdentityForgotten(cfg: Settings, m: Memory, e: Inspection, now: Time) {
    e.id in m.seen && m.seen[e.id].at < now - Window(cfg)
  }

  predicate BottleForgotten(cfg: Settings, m: Memory, e: Inspection, now: Time) {
    KeyOf(e) in m.bottles && m.bottles[KeyOf(e)] < now - Window(cfg)
  }

  predicate HeadForgotten(cfg: Settings, m: Memory, e: Inspection, now: Time) {
    e.id.session in m.heads && m.heads[e.id.session].touched < now - Window(cfg)
  }

  /** The next sequence of a forgotten session is the one event its head says nothing about. */
  predicate Continues(m: Memory, e: Inspection) {
    e.id.session in m.heads && e.id.sequence == m.heads[e.id.session].sequence + 1
  }

  /** The recent tables have no place for a new session, or none for a bottle not seen lately. */
  predicate NoRoom(cfg: Settings, recent: Memory, e: Inspection) {
    || (e.id.session !in recent.heads && |recent.heads| >= cfg.capacity)
    || (KeyOf(e) !in recent.bottles && |recent.seen| >= cfg.capacity)
  }

  /** The event is judged on its merits: enabled, fresh, numbered, and neither a repeat nor a
      regression within the window. */
  predicate Contends(cfg: Settings, v: View, e: Inspection, now: Time) {
    Prunes(cfg, e, now) && e.id.sequence != 0 && v.seen.None? && !(IsLate(v, e) && e.at > v.head.value.inspectedAt)
  }

  predicate Diverges(cfg: Settings, history: Memory, e: Inspection, now: Time) {
    var recent := Visible(cfg, history, now);
    || (Prunes(cfg, e, now) && e.id.sequence != 0 && IdentityForgotten(cfg, history, e, now))
    || (&& Contends(cfg, Look(cfg, recent, e), e, now)
        && (|| (HeadForgotten(cfg, history, e, now) && !Continues(history, e))
            || BottleForgotten(cfg, history, e, now)
            || NoRoom(cfg, recent, e)))
  }

  lemma ForgottenShows(cfg: Settings, m: Memory, e: Inspection, now: Time)
    ensures var recent, whole := Look(cfg, Visible(cfg, m, now), e), Look(cfg, m, e);
            && recent.seen == (if IdentityForgotten(cfg, m, e, now) then None else whole.seen)
            && recent.head == (if HeadForgotten(cfg, m, e, now) then None else whole.head)
            && recent.bottleSeen == (whole.bottleSeen && !BottleForgotten(cfg, m, e, now))
  {
  }

  /** A fresh event lies after anything a forgotten head has shown. */
  lemma JudgementsDiffer(cfg: Settings, m: Memory, clock: Time, e: Inspection, now: Time)
    requires Settled(cfg) && HeadsInTime(m, clock)
    ensures Decided(cfg, m, e, now) != JudgedByAll(cfg, m, e, now) <==> Diverges(cfg, m, e, now)
  {
    ForgottenShows(cfg, m, e, now);
  }

  /** Over every run, the cache decides otherwise than a memory without limits would if and only if
      the event is fresh and its identity was forgotten, or it is judged on its merits and its
      session's head was forgotten and it does not continue it, or its bottle was forgotten, or the
      recent tables have no room for it. */
  lemma CacheDivergesExactly(cfg: Settings, inputs: seq<Input>, next: Input)
    requires Settled(cfg) && Run(cfg, inputs).clock <= next.now
    ensures var w := Run(cfg, inputs);
            Decided(cfg, w.pruned, next.event, next.now) != JudgedByAll(cfg, w.history, next.event, next.now) <==>
              Diverges(cfg, w.history, next.event, next.now)
  {
    var w := Run(cfg, inputs);
    CacheIsRecentHistory(cfg, inputs, next.now);
    JudgementsDiffer(cfg, w.history, next.now, next.event, next.now);
  }

  /** While the cache has room, only what was forgotten about this identity, this session or this
      bottle can make a difference; each of them does. */
  lemma WithRoomOnlyForgettingMatters(cfg: Settings, inputs: seq<Input>, next: Input)
    requires Settled(cfg) && Run(cfg, inputs).clock <= next.now
    requires |Run(cfg, inputs).pruned.seen| < cfg.capacity && |Run(cfg, inputs).pruned.heads| < cfg.capacity
    ensures var w := Run(cfg, inputs);
            var e, now := next.event, next.now;
            Decided(cfg, w.pruned, e, now) != JudgedByAll(cfg, w.history, e, now) <==>
              || (Prunes(cfg, e, now) && e.id.sequence != 0 && IdentityForgotten(cfg, w.history, e, now))
              || (&& Contends(cfg, Look(cfg, Visible(cfg, w.history, now), e), e, now)
                  && ((HeadForgotten(cfg, w.history, e, now) && !Continues(w.history, e))
                      || BottleForgotten(cfg, w.history, e, now)))
  {
    var w := Run(cfg, inputs);
    CacheDivergesExactly(cfg, inputs, next);
    CacheIsRecentHistory(cfg, inputs, next.now);
    SmallerMap(Visible(cfg, w.pruned, next.now).seen, w.pruned.seen);
    SmallerMap(Visible(cfg, w.pruned, next.now).heads, w.pruned.heads);
  }

  /** A witness: a bottle inspected again after twenty seconds is admitted again by the cache. */
  lemma ForgottenBottleIsAdmittedAgain()
    ensures var cfg := Settings(true, 5 * SECOND, 16, "reject");
            var first := Inspection(InspectionId(1, 1), 7, false, 0);
            var again := Inspection(InspectionId(1, 2), 7, false, 20 * SECOND);
            var w := Run(cfg, [Input(first, 0, "a")]);
            && Decided(cfg, w.pruned, again, 20 * SECOND).accepted
            && JudgedByAll(cfg, w.history, again, 20 * SECOND) == Decision(false, BottleDuplicate, 0, false)
  {
    var cfg := Settings(true, 5 * SECOND, 16, "reject");
    var first := Inspection(InspectionId(1, 1), 7, false, 0);
    var start := World(0, EMPTY, EMPTY, [], []);
    assert [Input(first, 0, "a")][..0] == [];
    assert Visible(cfg, EMPTY, 0) == EMPTY;
    var filed := Memory(map[first.id := Sighting(0, first)], map[KeyOf(first) := 0], map[1 := Head(1, 0, 0)]);
    assert Step(cfg, start, Input(first, 0, "a")) == World(0, filed, filed, [Sighting(0, first)], [Order(cfg, first, 0, "a")]);
    assert Visible(cfg, filed, 20 * SECOND) == EMPTY;
  }

  /** No inspection is admitted twice in any run, though the cache forgets it; one bottle of a
      session is admitted again only after the whole window. */
  lemma AdmittedOnce(cfg: Settings, inputs: seq<Input>, i: nat, j: nat)
    requires Settled(cfg) && i < j < |Run(cfg, inputs).admitted|
    ensures var a, b := Run(cfg, inputs).admitted[i], Run(cfg, inputs).admitted[j];
            a.event != b.event && (KeyOf(a.event) == KeyOf(b.event) ==> a.at + cfg.maxAge + MARGIN < b.at)
  {
    RunKeepsInv(cfg, inputs);
  }

  lemma {:induction false} ImageSize<A, B>(f: map<A, B>)
    requires forall a, b | a in f && b in f && f[a] == f[b] :: a == b
    ensures |f.Keys| == |f.Values|
    decreases |f|
  {
    if f.Keys == {} {
      assert f.Values == {};
    } else {
      var a :| a in f;
      var g := map x | x in f && x != a :: f[x];
      assert f.Keys == g.Keys + {a} && f.Values == g.Values + {f[a]};
      ImageSize(g);
    }
  }

  lemma PairedSize(m: Memory)
    requires Paired(m)
    ensures |m.seen| == |m.bottles|
  {
    var keyOf := map id | id in m.seen :: KeyOf(m.seen[id].event);
    ImageSize(keyOf);
    assert keyOf.Keys == m.seen.Keys;
    assert keyOf.Values == m.bottles.Keys;
  }

  /** The two dedup tables always have the same size, and no table outgrows the capacity. */
  lemma TablesStayBounded(cfg: Settings, inputs: seq<Input>)
    requires Settled(cfg)
    ensures var m := Run(cfg, inputs).pruned;
            |m.seen| == |m.bottles| <= cfg.capacity && |m.heads| <= cfg.capacity
  {
    var m := Run(cfg, inputs).pruned;
    RunKeepsInv(cfg, inputs);
    PairedSize(m);
  }
}
