/** The simulated equipment behind the command mailboxes and its acknowledgement codes. */
module DeviceControls {
  type Status = nat

  const APPLIED: Status := 1
  const INVALID: Status := 2
  const PRECONDITION_FAILED: Status := 3
  const DUPLICATE: Status := 4

  const REGISTER_MAX: nat := 65535

  datatype Motor = Motor(maxSpeed: nat, setpoint: nat, running: bool, faulted: bool)

  function ApplyMotor(m: Motor, operation: nat, value: nat): (Motor, Status) {
    match operation
    case 2 => if value <= m.maxSpeed then (m.(setpoint := value), APPLIED) else (m, INVALID)
    case 1 =>
      if value > 1 then (m, INVALID)
      else if value == 1 && m.faulted then (m, PRECONDITION_FAILED)
      else (m.(running := value == 1), APPLIED)
    case 3 =>
      if value != 1 then (m, INVALID)
      else if !m.faulted then (m, PRECONDITION_FAILED)
      else (m.(faulted := false, running := false), APPLIED)
    case 4 => if value == 1 then (m.(faulted := true, running := false), APPLIED) else (m, INVALID)
    case _ => (m, INVALID)
  }

  /** A faulted motor stands still. */
  predicate Tripped(m: Motor) {
    m.faulted ==> !m.running
  }

  /** Only an answer of "applied" moves the motor, and never past its top speed; a fault stops it,
      forbids starting it, and is cleared by operation 3 alone, which leaves it standing. */
  lemma MotorIsInterlocked(m: Motor, operation: nat, value: nat)
    ensures var (n, status) := ApplyMotor(m, operation, value);
            && (status != APPLIED ==> n == m)
            && (status == PRECONDITION_FAILED <==> value == 1 && ((operation == 1 && m.faulted) || (operation == 3 && !m.faulted)))
            && (status == INVALID <==> operation == 0 || operation > 4 || (operation == 2 && value > m.maxSpeed)
                                       || (operation == 1 && value > 1) || (operation >= 3 && value != 1))
            && (Tripped(m) ==> Tripped(n))
            && (m.setpoint <= m.maxSpeed ==> n.setpoint <= n.maxSpeed) && n.maxSpeed == m.maxSpeed
            && (m.faulted && !n.faulted ==> operation == 3 && !n.running)
            && (!m.faulted && n.faulted ==> operation == 4)
            && (!m.running && n.running ==> operation == 1 && value == 1 && !m.faulted)
            && (status == APPLIED || status == INVALID || status == PRECONDITION_FAILED)
            && (status == APPLIED && operation == 1 ==> n == m.(running := value == 1))
            && (status == APPLIED && operation == 2 ==> n == m.(setpoint := value))
            && (status == APPLIED && operation == 3 ==> n == m.(faulted := false, running := false))
            && (status == APPLIED && operation == 4 ==> n == m.(faulted := true, running := false))
  {
  }

  function ApplyAll(m: Motor, commands: seq<(nat, nat)>): Motor
    decreases |commands|
  {
    if commands == [] then m else ApplyAll(ApplyMotor(m, commands[0].0, commands[0].1).0, commands[1..])
  }

  /** However many commands arrive, a tripped motor stays tripped and still until a reset, and after
      a reset until a start. */
  lemma {:induction false} FaultHoldsUntilReset(m: Motor, commands: seq<(nat, nat)>)
    requires Tripped(m)
    ensures Tripped(ApplyAll(m, commands))
    ensures m.faulted && (3, 1) !in commands ==> ApplyAll(m, commands).faulted && !ApplyAll(m, commands).running
    ensures !m.running && (1, 1) !in commands ==> !ApplyAll(m, commands).running
    decreases |commands|
  {
    if commands != [] {
      MotorIsInterlocked(m, commands[0].0, commands[0].1);
      FaultHoldsUntilReset(ApplyMotor(m, commands[0].0, commands[0].1).0, commands[1..]);
    }
  }

  datatype Valve = Valve(flowing: bool)

  function ApplyValve(v: Valve, operation: nat, value: nat): (Valve, Status) {
    if operation != 1 || value > 1 then (v, INVALID) else (Valve(value == 1), APPLIED)
  }

  /** The valve takes an opening or a closing and nothing else. */
  lemma ValveFollows(v: Valve, operation: nat, value: nat)
    ensures var (n, status) := ApplyValve(v, operation, value);
            if operation == 1 && value <= 1 then status == APPLIED && (n.flowing <==> value == 1)
            else status == INVALID && n == v
  {
  }

  /** `present` lists the bottles in the window, oldest first. */
  datatype Rejector = Rejector(window: nat, count: nat, lastBottle: nat, present: seq<nat>, rejected: set<nat>)

  function Dropped(r: Rejector): Rejector
    decreases |r.present|
  {
    if |r.present| > r.window
    then Dropped(r.(present := r.present[1..], rejected := r.rejected - {r.present[0]}))
    else r
  }

  function Passing(r: Rejector, bottle: nat): Rejector {
    Dropped(if bottle in r.present then r else r.(present := r.present + [bottle]))
  }

  function ApplyRejector(r: Rejector, operation: nat, value: nat): (Rejector, Status) {
    if operation != 1 || value == 0 || value > REGISTER_MAX then (r, INVALID)
    else if value !in r.present then (r, PRECONDITION_FAILED)
    else if value in r.rejected then (r, DUPLICATE)
    else (r.(rejected := r.rejected + {value}, lastBottle := value,
             count := if r.count < REGISTER_MAX then r.count + 1 else REGISTER_MAX), APPLIED)
  }

  /** Only bottles still in the window count as rejected, and none is listed twice. */
  ghost predicate Consistent(r: Rejector) {
    && |r.present| <= r.window
    && (forall b | b in r.rejected :: b in r.present)
    && (forall i, j | 0 <= i < j < |r.present| :: r.present[i] != r.present[j])
  }

  /** Dropping takes the oldest bottles, with their rejections, until the rest fit the window. */
  lemma {:induction false} DroppingTakesOldest(r: Rejector) returns (k: nat)
    ensures k <= |r.present| && Dropped(r).present == r.present[k..] && |r.present| - k <= r.window
    ensures forall b :: b in Dropped(r).rejected <==> b in r.rejected && b !in r.present[..k]
    ensures k > 0 ==> |r.present| - k == r.window
    ensures Dropped(r).count == r.count && Dropped(r).window == r.window && Dropped(r).lastBottle == r.lastBottle
    decreases |r.present|
  {
    if |r.present| > r.window {
      var n := r.(present := r.present[1..], rejected := r.rejected - {r.present[0]});
      k := DroppingTakesOldest(n);
      assert r.present[..k + 1] == [r.present[0]] + n.present[..k];
      k := k + 1;
    } else {
      k := 0;
    }
  }

  function Newest(bottles: seq<nat>, window: nat): seq<nat> {
    if |bottles| > window then bottles[|bottles| - window..] else bottles
  }

  lemma DroppingKeeps(r: Rejector)
    requires forall b | b in r.rejected :: b in r.present
    requires forall i, j | 0 <= i < j < |r.present| :: r.present[i] != r.present[j]
    ensures Consistent(Dropped(r))
    ensures Dropped(r).count == r.count && Dropped(r).window == r.window && Dropped(r).lastBottle == r.lastBottle
    ensures Dropped(r).present == Newest(r.present, r.window)
    ensures forall b :: b in Dropped(r).rejected <==> b in r.rejected && b in Dropped(r).present
  {
    var k := DroppingTakesOldest(r);
    var n := Dropped(r);
    assert r.present == r.present[..k] + n.present;
    forall b | b in n.present ensures b !in r.present[..k] {
      var j :| 0 <= j < |n.present| && n.present[j] == b;
      assert r.present[k + j] == b;
    }
  }

  /** A passing bottle joins the window as its newest, unless it is there; the window keeps its newest
      bottles, and a bottle stays rejected exactly as long as it stays in the window. */
  lemma PassingKeeps(r: Rejector, bottle: nat)
    requires Consistent(r)
    ensures var n := Passing(r, bottle);
            && Consistent(n) && n.count == r.count && n.lastBottle == r.lastBottle && n.window == r.window
            && n.present == (if bottle in r.present then r.present else Newest(r.present + [bottle], r.window))
            && (r.window > 0 ==> bottle in n.present)
            && forall b :: b in n.rejected <==> b in r.rejected && b in n.present
  {
    var joined := if bottle in r.present then r else r.(present := r.present + [bottle]);
    DroppingKeeps(joined);
    if r.window > 0 && bottle !in r.present {
      assert Passing(r, bottle).present[|Passing(r, bottle).present| - 1] == bottle;
    }
  }

  /** A rejection is applied exactly for a bottle in the window that was not rejected yet: it is counted
      up to the register's limit and shown as the last one. Then the same request can only be answered
      as a duplicate, and a request refused changes nothing. */
  lemma RejectionHappensOnce(r: Rejector, operation: nat, value: nat)
    requires Consistent(r)
    ensures var (n, status) := ApplyRejector(r, operation, value);
            var valid := operation == 1 && 1 <= value <= 65535;
            && Consistent(n)
            && (status == INVALID <==> !valid)
            && (status == PRECONDITION_FAILED <==> valid && value !in r.present)
            && (status == DUPLICATE <==> valid && value in r.present && value in r.rejected)
            && (status == APPLIED <==> valid && value in r.present && value !in r.rejected)
            && (status == APPLIED ==>
                  && n == Rejector(r.window, if r.count < 65535 then r.count + 1 else 65535, value, r.present,
                                   r.rejected + {value})
                  && ApplyRejector(n, operation, value) == (n, DUPLICATE))
            && (status != APPLIED ==> n == r)
  {
  }

  function PassingAll(r: Rejector, bottles: seq<nat>): Rejector
    decreases |bottles|
  {
    if bottles == [] then r else PassingAll(Passing(r, bottles[0]), bottles[1..])
  }

  /** A bottle at this place of the window is still there after any bottles that leave it room, no nearer
      the old end than they push it, and is still rejected exactly if it was. */
  lemma {:induction false} StaysInWindow(r: Rejector, bottle: nat, k: nat, later: seq<nat>)
    requires Consistent(r) && k < |r.present| && r.present[k] == bottle && |later| <= r.window - |r.present| + k
    ensures var n := PassingAll(r, later);
            && Consistent(n) && bottle in n.present && n.count == r.count
            && (bottle in n.rejected <==> bottle in r.rejected)
    decreases |later|
  {
    if later != [] {
      var n := Passing(r, later[0]);
      PassingKeeps(r, later[0]);
      var moved := |r.present| + 1 - |n.present|;
      StaysInWindow(n, bottle, if later[0] in r.present then k else k - moved, later[1..]);
    }
  }

  /** So a numbered bottle that has just passed, and was not rejected before, can be rejected once until
      as many bottles have passed as the window holds. */
  lemma PassedBottlesCanBeRejected(r: Rejector, bottle: nat, later: seq<nat>)
    requires Consistent(r) && bottle !in r.present && 1 <= bottle <= 65535 && |later| < r.window
    ensures var (n, status) := ApplyRejector(PassingAll(Passing(r, bottle), later), 1, bottle);
            status == APPLIED && n.lastBottle == bottle && n.count == if r.count < 65535 then r.count + 1 else 65535
  {
    var n := Passing(r, bottle);
    PassingKeeps(r, bottle);
    assert n.present[|n.present| - 1] == bottle;
    StaysInWindow(n, bottle, |n.present| - 1, later);
  }

  class MotorControl {
    const maxSpeed: nat
    var setpoint: nat
    var running: bool
    var faulted: bool

    ghost function State(): Motor
      reads this
    {
      Motor(maxSpeed, setpoint, running, faulted)
    }

    constructor (maxSpeed: nat, setpoint: nat)
      ensures State() == Motor(maxSpeed, setpoint, true, false)
    {
      this.maxSpeed, this.setpoint, running, faulted := maxSpeed, setpoint, true, false;
    }

    constructor Restore(saved: Motor)
      ensures State() == saved
    {
      maxSpeed, setpoint, running, faulted := saved.maxSpeed, saved.setpoint, saved.running, saved.faulted;
    }

    method Apply(operation: nat, value: nat) returns (status: Status)
      modifies this
      ensures (State(), status) == ApplyMotor(old(State()), operation, value)
      ensures status != APPLIED ==> State() == old(State())
    {
      if operation == 2 {
        if value > maxSpeed {
          return INVALID;
        }
        setpoint := value;
      } else if operation == 1 {
        if value != 0 && value != 1 {
          return INVALID;
        }
        if value != 0 && faulted {
          return PRECONDITION_FAILED;
        }
        running := value != 0;
      } else if operation == 3 {
        if value != 1 {
          return INVALID;
        }
        if !faulted {
          return PRECONDITION_FAILED;
        }
        faulted, running := false, false;
      } else if operation == 4 && value == 1 {
        faulted, running := true, false;
      } else {
        return INVALID;
      }
      status := APPLIED;
    }
  }

  class RejectControl {
    const window: nat
    var count: nat
    var lastBottle: nat
    var present: seq<nat>
    var rejected: set<nat>

    ghost function State(): Rejector
      reads this
    {
      Rejector(window, count, lastBottle, present, rejected)
    }

    ghost predicate Valid()
      reads this
    {
      Consistent(State())
    }

    constructor (window: nat)
      ensures Valid() && State() == Rejector(window, 0, 0, [], {})
    {
      this.window := window;
      count, lastBottle, present, rejected := 0, 0, [], {};
    }

    constructor Restore(saved: Rejector)
      requires Consistent(saved)
      ensures Valid() && State() == saved
    {
      window, count, lastBottle := saved.window, saved.count, saved.lastBottle;
      present, rejected := saved.present, saved.rejected;
    }

    method Observe(bottle: nat)
      requires Valid()
      modifies this
      ensures Valid() && State() == Passing(old(State()), bottle)
    {
      PassingKeeps(State(), bottle);
      if bottle !in present {
        present := present + [bottle];
      }
      while |present| > window
        invariant Dropped(State()) == Passing(old(State()), bottle)
        decreases |present|
      {
        rejected := rejected - {present[0]};
        present := present[1..];
      }
    }

    method Apply(operation: nat, value: nat) returns (status: Status)
      requires Valid()
      modifies this
      ensures Valid() && (State(), status) == ApplyRejector(old(State()), operation, value)
    {
      if operation != 1 || value < 1 || value > REGISTER_MAX {
        return INVALID;
      }
      RejectionHappensOnce(State(), operation, value);
      if value !in present {
        return PRECONDITION_FAILED;
      }
      if value in rejected {
        return DUPLICATE;
      }
      rejected := rejected + {value};
      count := if count + 1 < REGISTER_MAX then count + 1 else REGISTER_MAX;
      lastBottle := value;
      status := APPLIED;
    }
  }
}
