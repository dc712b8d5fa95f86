/** Vocabulary shared by every module: optional values, results and instants. */
module Common {

  datatype Option<+T> = None | Some(value: T)

  /** The source's raised exceptions become the Failure case. */
  datatype Result<+T> = Success(value: T) | Failure(error: string)

  /** Instants and durations in microseconds, the resolution of the source's timestamps. */
  type Time = int

  const SECOND: Time := 1_000_000
  const DAY: Time := 86_400 * SECOND

  function Max(a: Time, b: Time): (r: Time)
    ensures r >= a && r >= b && (r == a || r == b)
  {
    if a >= b then a else b
  }

  /** Splitting the last element off the second part. */
  lemma SplitLast<T>(a: seq<T>, b: seq<T>)
    requires b != []
    ensures a + b == (a + b[..|b| - 1]) + [b[|b| - 1]]
  {
    assert b == b[..|b| - 1] + [b[|b| - 1]];
  }

  lemma ShiftFirst<T>(a: seq<T>, b: seq<T>)
    requires b != []
    ensures a + b == a + [b[0]] + b[1..]
  {
  }

  lemma FirstOfSum<T>(a: seq<T>, b: seq<T>)
    requires a != []
    ensures (a + b)[0] == a[0] && (a + b)[1..] == a[1..] + b
  {
  }

  lemma DropLast<T>(a: seq<T>, e: T)
    ensures (a + [e])[..|a + [e]| - 1] == a && (a + [e])[|a + [e]| - 1] == e && a + [e] != []
  {
  }

  lemma {:induction false} Shrinks<T>(small: set<T>, large: set<T>)
    requires small <= large
    ensures |small| <= |large|
  {
    if small != {} {
      var x :| x in small;
      Shrinks(small - {x}, large - {x});
    }
  }
}
