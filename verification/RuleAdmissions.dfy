/** What the in-memory inspection rule does over whole runs, told by what it admitted: which
    commands it returned, when it admits, and what it says of everything else. */
module RuleAdmissions {
  import opened Common
  import opened Authorization
  import opened InspectionCodec
  import opened InspectionRule

  function FailedOf(admitted: seq<Sighting>): seq<Sighting> {
    if admitted == [] then []
    else
      var last := admitted[|admitted| - 1];
      FailedOf(admitted[..|admitted| - 1]) + if last.event.passed then [] else [last]
  }

  /** The command for this failed inspection: its bottle at the configured target, requested when it was
      admitted, by its own time and the age limit, under an identity given with that input. */
  ghost predicate Requests(cfg: Settings, inputs: seq<Input>, command: Command, a: Sighting) {
    && command == Command(command.id, "decision-agent-stub", cfg.target, "int64", a.event.bottle, a.at, a.event.at + cfg.maxAge)
    && exists i :: i in inputs && i.event == a.event && i.now == a.at && i.ulid == command.id
  }

  lemma RequestsLast(cfg: Settings, before: seq<Input>, inputs: seq<Input>)
    requires before <= inputs
    ensures forall c, a | Requests(cfg, before, c, a) :: Requests(cfg, inputs, c, a)
  {
    assert forall i | i in before :: i in inputs;
  }

  /** The commands returned so far answer the failed inspections admitted so far. */
  ghost predicate Answered(cfg: Settings, inputs: seq<Input>, w: World) {
    && |w.ordered| == |FailedOf(w.admitted)|
    && forall k | 0 <= k < |w.ordered| :: Requests(cfg, inputs, w.ordered[k], FailedOf(w.admitted)[k])
  }

  lemma AdmittingAnswers(cfg: Settings, inputs: seq<Input>, w: World, i: Input, n: World)
    requires Answered(cfg, inputs, w) && i in inputs && n == Step(cfg, w, i)
    ensures Answered(cfg, inputs, n)
  {
    var a := Sighting(i.now, i.event);
    if n.admitted != w.admitted {
      DropLast(w.admitted, a);
      assert FailedOf(n.admitted) == FailedOf(w.admitted) + if i.event.passed then [] else [a];
    }
  }

  /** In every run the commands returned are, in order, one for each failed inspection admitted. */
  lemma {:induction false} OrdersFollowAdmissions(cfg: Settings, inputs: seq<Input>)
    ensures var w := Run(cfg, inputs);
            var failed := FailedOf(w.admitted);
            |w.ordered| == |failed| && forall k | 0 <= k < |failed| :: Requests(cfg, inputs, w.ordered[k], failed[k])
  {
    if inputs != [] {
      var before, i := inputs[..|inputs| - 1], inputs[|inputs| - 1];
      OrdersFollowAdmissions(cfg, before);
      RequestsLast(cfg, before, inputs);
      AdmittingAnswers(cfg, inputs, Run(cfg, before), i, Run(cfg, inputs));
    }
  }

  // ----- when the rule admits -----

  lemma PrunedSeen(cfg: Settings, m: Memory, e: Inspection, now: Time, k: InspectionId)
    requires k in PrunedUpdate(cfg, m, e, now).seen
    ensures var n := PrunedUpdate(cfg, m, e, now);
            (k in m.seen && n.seen[k] == m.seen[k])
            || (Decided(cfg, m, e, now).accepted && n.seen[k] == Sighting(now, e))
  {
  }

  ghost predicate ShowsAdmitted(w: World) {
    forall k | k in w.pruned.seen :: w.pruned.seen[k] in w.admitted
  }

  lemma StepShowsAdmitted(cfg: Settings, w: World, i: Input)
    requires ShowsAdmitted(w)
    ensures ShowsAdmitted(Step(cfg, w, i))
  {
    var n := Step(cfg, w, i);
    assert w.admitted <= n.admitted;
    assert forall a | a in w.admitted :: a in n.admitted;
    if w.clock <= i.now {
      forall k | k in n.pruned.seen ensures n.pruned.seen[k] in n.admitted {
        PrunedSeen(cfg, w.pruned, i.event, i.now, k);
        if Decided(cfg, w.pruned, i.event, i.now).accepted {
          assert n.admitted[|w.admitted|] == Sighting(i.now, i.event);
        }
      }
    }
  }

  /** Whatever the cache shows was admitted. */
  lemma {:induction false} SeenAreAdmitted(cfg: Settings, inputs: seq<Input>)
    ensures ShowsAdmitted(Run(cfg, inputs))
  {
    if inputs != [] {
      SeenAreAdmitted(cfg, inputs[..|inputs| - 1]);
      StepShowsAdmitted(cfg, Run(cfg, inputs[..|inputs| - 1]), inputs[|inputs| - 1]);
    }
  }

  /** Admitted within the age limit and ten seconds. */
  predicate Recent(cfg: Settings, a: Sighting, now: Time) {
    a.at >= now - cfg.maxAge - 10 * SECOND
  }

  ghost predicate IdentityRecent(cfg: Settings, admitted: seq<Sighting>, e: Inspection, now: Time) {
    exists a :: a in admitted && a.event.id == e.id && Recent(cfg, a, now)
  }

  ghost predicate EventRecent(cfg: Settings, admitted: seq<Sighting>, e: Inspection, now: Time) {
    exists a :: a in admitted && a.event == e && Recent(cfg, a, now)
  }

  ghost predicate BottleRecent(cfg: Settings, admitted: seq<Sighting>, e: Inspection, now: Time) {
    exists a :: a in admitted && a.event.id.session == e.id.session && a.event.bottle == e.bottle && Recent(cfg, a, now)
  }

  /** What the cache still shows is exactly what was admitted within the window. */
  lemma ShownIsRecent(cfg: Settings, w: World, e: Inspection, now: Time, kept: Memory)
    requires Paired(w.pruned) && AdmissionsKept(cfg, w) && w.clock <= now && kept == Visible(cfg, w.pruned, now)
    requires ShowsAdmitted(w)
    ensures e.id in kept.seen <==> IdentityRecent(cfg, w.admitted, e, now)
    ensures e.id in kept.seen && kept.seen[e.id].event == e <==> EventRecent(cfg, w.admitted, e, now)
    ensures KeyOf(e) in kept.bottles <==> BottleRecent(cfg, w.admitted, e, now)
  {
    forall a | a in w.admitted && Recent(cfg, a, now)
      ensures a.event.id in kept.seen && kept.seen[a.event.id] == a && KeyOf(a.event) in kept.bottles
    {
      assert w.pruned.seen[a.event.id] == a;
    }
    if KeyOf(e) in kept.bottles {
      var id :| id in w.pruned.seen && KeyOf(w.pruned.seen[id].event) == KeyOf(e);
      assert Recent(cfg, w.pruned.seen[id], now);
    }
  }

  /** The session's head, while it has been touched within the window. */
  function HeadOf(cfg: Settings, m: Memory, session: nat, now: Time): Option<Head> {
    if session in m.heads && m.heads[session].touched >= now - cfg.maxAge - 10 * SECOND then Some(m.heads[session]) else None
  }

  function RecentHeads(cfg: Settings, m: Memory, now: Time): set<nat> {
    set k | k in m.heads && m.heads[k].touched >= now - cfg.maxAge - 10 * SECOND
  }

  function RecentIds(cfg: Settings, m: Memory, now: Time): set<InspectionId> {
    set k | k in m.seen && m.seen[k].at >= now - cfg.maxAge - 10 * SECOND
  }

  /** The event fits behind its session's head: newer by number, or not newer by time; a session
      without a head needs room for one. */
  predicate Fits(cfg: Settings, m: Memory, e: Inspection, now: Time) {
    match HeadOf(cfg, m, e.id.session, now)
    case Some(h) => e.id.sequence > h.sequence || e.at <= h.inspectedAt
    case None => |RecentHeads(cfg, m, now)| < cfg.capacity
  }

  predicate InTime(cfg: Settings, e: Inspection, now: Time) {
    cfg.enabled && e.at <= now < e.at + cfg.maxAge && e.id.sequence > 0
  }

  lemma ViewSizes(cfg: Settings, m: Memory, now: Time, kept: Memory)
    requires kept == Visible(cfg, m, now)
    ensures |kept.seen| == |RecentIds(cfg, m, now)| && |kept.heads| == |RecentHeads(cfg, m, now)|
  {
    assert kept.seen.Keys == RecentIds(cfg, m, now);
    assert kept.heads.Keys == RecentHeads(cfg, m, now);
  }

  /** What the rule looks at is what the run admitted within the window. */
  lemma ViewOfRun(cfg: Settings, inputs: seq<Input>, e: Inspection, now: Time, w: World, v: View)
    requires Settled(cfg) && w == Run(cfg, inputs) && w.clock <= now && v == Look(cfg, Visible(cfg, w.pruned, now), e)
    ensures v.seen.Some? <==> IdentityRecent(cfg, w.admitted, e, now)
    ensures v.seen == Some(e) <==> EventRecent(cfg, w.admitted, e, now)
    ensures v.bottleSeen <==> BottleRecent(cfg, w.admitted, e, now)
    ensures v.head == HeadOf(cfg, w.pruned, e.id.session, now)
    ensures v.headsFull <==> |RecentHeads(cfg, w.pruned, now)| >= cfg.capacity
    ensures v.seenFull <==> |RecentIds(cfg, w.pruned, now)| >= cfg.capacity
  {
    var kept := Visible(cfg, w.pruned, now);
    RunKeepsInv(cfg, inputs);
    SeenAreAdmitted(cfg, inputs);
    ShownIsRecent(cfg, w, e, now, kept);
    ViewSizes(cfg, w.pruned, now, kept);
  }

  predicate FitsView(v: View, e: Inspection) {
    match v.head
    case Some(h) => e.id.sequence > h.sequence || e.at <= h.inspectedAt
    case None => !v.headsFull
  }

  lemma Judgement(cfg: Settings, v: View, e: Inspection, now: Time, d: Decision)
    requires d == Judge(cfg, v, e, now)
    ensures d.accepted <==> InTime(cfg, e, now) && v.seen.None? && !v.bottleSeen && FitsView(v, e) && !v.seenFull
    ensures d.accepted ==> d.reason == if e.passed then PassedBottle else FailedBottle
    ensures d.reason == Disabled <==> !cfg.enabled
    ensures d.reason == InFuture <==> cfg.enabled && now < e.at
    ensures d.reason == Stale <==> cfg.enabled && e.at <= now && now >= e.at + cfg.maxAge
    ensures d.reason == InvalidIdentity <==> cfg.enabled && e.at <= now < e.at + cfg.maxAge && e.id.sequence == 0
    ensures d.reason == Duplicate <==> InTime(cfg, e, now) && v.seen == Some(e)
    ensures d.reason == IdentityConflict <==> InTime(cfg, e, now) && v.seen.Some? && v.seen != Some(e)
    ensures d.reason == SequenceRegression <==> InTime(cfg, e, now) && v.seen.None? && v.head.Some? && !FitsView(v, e)
    ensures d.reason == BottleDuplicate <==> InTime(cfg, e, now) && v.seen.None? && FitsView(v, e) && v.bottleSeen
  {
  }

  /** Over every run an event is admitted exactly when the rule is enabled, the event is fresh and
      numbered, neither its identity nor its bottle was admitted within the window, it fits behind its
      session's head, and there is room; what is refused is told for the first of these that fails. */
  lemma DecisionsAreExact(cfg: Settings, inputs: seq<Input>, e: Inspection, now: Time, w: World, d: Decision)
    requires Settled(cfg) && w == Run(cfg, inputs) && w.clock <= now && d == Decided(cfg, w.pruned, e, now)
    ensures d.accepted <==> && InTime(cfg, e, now) && !IdentityRecent(cfg, w.admitted, e, now)
                            && !BottleRecent(cfg, w.admitted, e, now) && Fits(cfg, w.pruned, e, now)
                            && |RecentIds(cfg, w.pruned, now)| < cfg.capacity
    ensures d.accepted ==> d.reason == if e.passed then PassedBottle else FailedBottle
    ensures d.reason == Disabled <==> !cfg.enabled
    ensures d.reason == InFuture <==> cfg.enabled && now < e.at
    ensures d.reason == Stale <==> cfg.enabled && e.at <= now && now >= e.at + cfg.maxAge
    ensures d.reason == InvalidIdentity <==> cfg.enabled && e.at <= now < e.at + cfg.maxAge && e.id.sequence == 0
    ensures d.reason == Duplicate <==> InTime(cfg, e, now) && EventRecent(cfg, w.admitted, e, now)
    ensures d.reason == IdentityConflict <==>
              && InTime(cfg, e, now) && IdentityRecent(cfg, w.admitted, e, now) && !EventRecent(cfg, w.admitted, e, now)
    ensures d.reason == SequenceRegression <==>
              && InTime(cfg, e, now) && !IdentityRecent(cfg, w.admitted, e, now)
              && HeadOf(cfg, w.pruned, e.id.session, now).Some? && !Fits(cfg, w.pruned, e, now)
    ensures d.reason == BottleDuplicate <==>
              && InTime(cfg, e, now) && !IdentityRecent(cfg, w.admitted, e, now)
              && Fits(cfg, w.pruned, e, now) && BottleRecent(cfg, w.admitted, e, now)
  {
    var v := Look(cfg, Visible(cfg, w.pruned, now), e);
    ViewOfRun(cfg, inputs, e, now, w, v);
    Judgement(cfg, v, e, now, d);
  }

  lemma HeadMoves(cfg: Settings, m: Memory, kept: Memory, v: View, e: Inspection, now: Time)
    requires InTime(cfg, e, now) && v.seen.None? && FitsView(v, e)
    requires kept == Visible(cfg, m, now) && v == Look(cfg, kept, e)
    ensures var n := PrunedUpdate(cfg, m, e, now);
            e.id.session in n.heads && n.heads[e.id.session] == NewHead(v, e, now)
  {
  }

  /** An event that is judged on its merits moves its session's head: a late one only keeps it from being
      forgotten, another becomes the head, and the decision counts the numbers in between as missing. */
  lemma HeadsFollow(cfg: Settings, inputs: seq<Input>, i: Input, w: World, n: World)
    requires Settled(cfg) && w == Run(cfg, inputs) && w.clock <= i.now && n == Step(cfg, w, i)
    requires InTime(cfg, i.event, i.now) && !IdentityRecent(cfg, w.admitted, i.event, i.now)
    requires Fits(cfg, w.pruned, i.event, i.now)
    ensures var e := i.event;
            var d := Decided(cfg, w.pruned, e, i.now);
            && e.id.session in n.pruned.heads
            && match HeadOf(cfg, w.pruned, e.id.session, i.now)
               case None => n.pruned.heads[e.id.session] == Head(e.id.sequence, i.now, e.at) && d.missing == 0 && !d.late
               case Some(h) =>
                 if e.id.sequence <= h.sequence
                 then n.pruned.heads[e.id.session] == Head(h.sequence, i.now, h.inspectedAt) && d.missing == 0 && d.late
                 else n.pruned.heads[e.id.session] == Head(e.id.sequence, i.now, e.at)
                      && h.sequence + d.missing + 1 == e.id.sequence && !d.late
  {
    var kept := Visible(cfg, w.pruned, i.now);
    var v := Look(cfg, kept, i.event);
    ViewOfRun(cfg, inputs, i.event, i.now, w, v);
    HeadMoves(cfg, w.pruned, kept, v, i.event, i.now);
    GapIsCounted(cfg, v, i.event, i.now);
  }

  lemma GapIsCounted(cfg: Settings, v: View, e: Inspection, now: Time)
    requires InTime(cfg, e, now) && v.seen.None? && FitsView(v, e)
    ensures var d := Judge(cfg, v, e, now); d.missing == Gap(v, e) && d.late == IsLate(v, e)
  {
  }
}
