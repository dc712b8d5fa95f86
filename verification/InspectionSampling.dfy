/** Which bottles a stream inspects and which inspections fail, over the life of the device: one
    bottle in so many, one inspection in so many, restarts or not. */
module InspectionSampling {
  import opened Common
  import opened InspectionCodec
  import opened InspectionStream

  datatype Happening = Bottle(number: nat, now: Time) | Restart

  function Happened(every: nat, failEvery: nat, s: Stream, h: Happening): Stream
    requires every > 0 && failEvery > 0
  {
    match h
    case Bottle(number, now) => Observed(every, failEvery, s, number, now)
    case Restart => s.(last := RebootIdentity(s.last))
  }

  function Lived(every: nat, failEvery: nat, session: nat, life: seq<Happening>): Stream
    requires every > 0 && failEvery > 0
  {
    if life == [] then Stream(InspectionId(session, 0), 0, 0, 0, BLANK)
    else Happened(every, failEvery, Lived(every, failEvery, session, life[..|life| - 1]), life[|life| - 1])
  }

  function Bottles(life: seq<Happening>): nat {
    if life == [] then 0 else Bottles(life[..|life| - 1]) + if life[|life| - 1].Bottle? then 1 else 0
  }

  lemma CountsUp(n: nat, d: nat)
    requires d > 0
    ensures (n + 1) / d == n / d + (if (n + 1) % d == 0 then 1 else 0)
  {
    var q, r := n / d, n % d;
    assert n == q * d + r;
    if r + 1 == d {
      assert n + 1 == (q + 1) * d;
      DivisionIs(n + 1, d, q + 1, 0);
    } else {
      DivisionIs(n + 1, d, q, r + 1);
    }
  }

  lemma {:induction false} Grows(k: nat, q: nat, d: nat, t: nat)
    requires k < q && t < d
    ensures k * d + t < q * d
  {
    if q > k + 1 {
      Grows(k, q - 1, d, t);
    }
    assert q * d == (q - 1) * d + d;
  }

  lemma DivisionIs(n: nat, d: nat, q: nat, r: nat)
    requires d > 0 && n == q * d + r && r < d
    ensures n / d == q && n % d == r
  {
    var k := n / d;
    assert n == k * d + n % d;
    if k < q {
      Grows(k, q, d, n % d);
    } else if q < k {
      Grows(q, k, d, r);
    }
  }

  /** After n bottles, n over `every` of them have been inspected, and that over `failEvery` have failed. */
  lemma {:induction false} CountsAreExact(every: nat, failEvery: nat, session: nat, life: seq<Happening>)
    requires every > 0 && failEvery > 0
    ensures var s := Lived(every, failEvery, session, life);
            && s.bottles == Bottles(life)
            && s.inspected == Bottles(life) / every
            && s.failed == Bottles(life) / every / failEvery
  {
    if life != [] {
      var before := life[..|life| - 1];
      CountsAreExact(every, failEvery, session, before);
      CountsUp(Bottles(before), every);
      CountsUp(Bottles(before) / every, failEvery);
    }
  }

  /** Exactly each `every`-th bottle is inspected: the next inspection then names that bottle,
      under the identity after the last, at the millisecond of its passing, and fails exactly if it is
      each `failEvery`-th; at a time that has no place in the registers it is counted but not
      shown. Any other bottle is only counted. */
  lemma InspectionsAreSampled(every: nat, failEvery: nat, session: nat, life: seq<Happening>, bottle: nat, now: Time,
                              s: Stream, n: Stream)
    requires every > 0 && failEvery > 0
    requires s == Lived(every, failEvery, session, life) && n == Observed(every, failEvery, s, bottle, now)
    ensures var k := (Bottles(life) + 1) / every;
            if (Bottles(life) + 1) % every == 0
            then && n.last == NextIdentity(s.last)
                 && n.snapshot == (if -1000 < now < 0x1_0000_0000_0000 * 1000
                                   then Encode(Some(Inspection(n.last, bottle, k % failEvery != 0,
                                                               if now < 0 then 0 else now / 1000 * 1000)))
                                   else s.snapshot)
                 && n.failed == s.failed + (if k % failEvery == 0 then 1 else 0)
            else n == s.(bottles := s.bottles + 1)
  {
    CountsAreExact(every, failEvery, session, life);
    CountsUp(Bottles(life), every);
  }

  /** The k-th inspection of a life without restarts: sequences from 1 to 65535, session after session. */
  function IdentityAt(session: nat, k: nat): InspectionId
    requires 0 < session <= SESSIONS
  {
    if k == 0 then InspectionId(session, 0)
    else InspectionId((session - 1 + (k - 1) / 65535) % SESSIONS + 1, (k - 1) % 65535 + 1)
  }

  lemma IdentityMoves(session: nat, k: nat)
    requires 0 < session <= SESSIONS
    ensures NextIdentity(IdentityAt(session, k)) == IdentityAt(session, k + 1)
  {
    if k > 0 {
      CountsUp(k - 1, 65535);
      SessionsAdvance(session, (k - 1) / 65535);
    }
  }

  lemma NumberingStep(every: nat, failEvery: nat, session: nat, s: Stream, h: Happening, bottles: nat)
    requires every > 0 && failEvery > 0 && 0 < session <= SESSIONS && h.Bottle?
    requires s.bottles == bottles && s.last == IdentityAt(session, bottles / every)
    ensures Happened(every, failEvery, s, h).last == IdentityAt(session, (bottles + 1) / every)
  {
    CountsUp(bottles, every);
    IdentityMoves(session, bottles / every);
  }

  lemma {:induction false} IdentitiesAreNumbered(every: nat, failEvery: nat, session: nat, life: seq<Happening>)
    requires every > 0 && failEvery > 0 && 0 < session <= SESSIONS && Restart !in life
    ensures Lived(every, failEvery, session, life).last == IdentityAt(session, Bottles(life) / every)
  {
    if life != [] {
      var before := life[..|life| - 1];
      assert life[|life| - 1] in life && Restart !in before;
      IdentitiesAreNumbered(every, failEvery, session, before);
      CountsAreExact(every, failEvery, session, before);
      NumberingStep(every, failEvery, session, Lived(every, failEvery, session, before), life[|life| - 1], Bottles(before));
    }
  }
}
