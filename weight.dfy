/**
 * The weight counter: an `Int` starting at 70 kg, changed only by the "-"
 * and "+" buttons.
 */
module Weight {
  import opened KotlinText

  const InitialPoids: int := 70

  datatype Press = Minus | Plus

  /** "-": the weight goes down by one unless it is already 0. */
  function Decrement(p: int): int {
    if p > 0 then p - 1 else p
  }

  /**
   * "+" as written: `poids++` on a Kotlin `Int`, which wraps from
   * `Int.MAX_VALUE` to `Int.MIN_VALUE`.
   */
  function IncrementAsWritten(p: int): (r: int)
    requires IntMin <= p <= IntMax
    ensures IntMin <= r <= IntMax
  {
    if p == IntMax then IntMin else p + 1
  }

  /** "+" corrected: one more, stopping at `Int.MAX_VALUE` instead of wrapping. */
  function Increment(p: int): int {
    if p < IntMax then p + 1 else p
  }

  /** Decrement stays at 0 and otherwise takes exactly one off; increment adds exactly one below the cap. */
  lemma ButtonSteps(p: int)
    requires 0 <= p <= IntMax
    ensures p == 0 ==> Decrement(p) == 0
    ensures p > 0 ==> Decrement(p) == p - 1
    ensures p < IntMax ==> Increment(p) == p + 1 && IncrementAsWritten(p) == p + 1
    ensures 0 <= Decrement(p) && 0 <= Increment(p) <= IntMax
  {
  }

  /** The weight after a series of presses, with the corrected "+". */
  function AfterPresses(p: int, presses: seq<Press>): int {
    if presses == [] then p
    else
      var before := AfterPresses(p, presses[..|presses| - 1]);
      match presses[|presses| - 1]
      case Minus => Decrement(before)
      case Plus => Increment(before)
  }

  /** With the corrected "+", no series of presses takes the weight out of 0..Int.MAX_VALUE. */
  lemma {:induction false} WeightStaysInRange(p: int, presses: seq<Press>)
    requires 0 <= p <= IntMax
    ensures 0 <= AfterPresses(p, presses) <= IntMax
  {
    if presses != [] {
      WeightStaysInRange(p, presses[..|presses| - 1]);
    }
  }

  /** The weight after a series of presses, with "+" as written. */
  function AfterPressesAsWritten(p: int, presses: seq<Press>): (r: int)
    requires IntMin <= p <= IntMax
    ensures IntMin <= r <= IntMax
  {
    if presses == [] then p
    else
      var before := AfterPressesAsWritten(p, presses[..|presses| - 1]);
      match presses[|presses| - 1]
      case Minus => Decrement(before)
      case Plus => IncrementAsWritten(before)
  }

  function Pluses(n: nat): (s: seq<Press>)
    ensures |s| == n
  {
    seq(n, _ => Plus)
  }

  /** As written, n presses of "+" add n while the sum stays within `Int`. */
  lemma {:induction false} PlusesAsWritten(p: int, n: nat)
    requires 0 <= p && p + n <= IntMax
    ensures AfterPressesAsWritten(p, Pluses(n)) == p + n
  {
    if n > 0 {
      assert Pluses(n)[..n - 1] == Pluses(n - 1);
      PlusesAsWritten(p, n - 1);
    }
  }

  /** As written, 2147483578 presses of "+" from 70 kg show a weight of -2147483648. */
  lemma AsWrittenWeightGoesNegative()
    ensures AfterPressesAsWritten(InitialPoids, Pluses(IntMax - InitialPoids + 1)) == IntMin
  {
    var n := IntMax - InitialPoids + 1;
    assert Pluses(n)[..n - 1] == Pluses(n - 1);
    PlusesAsWritten(InitialPoids, n - 1);
  }
}
