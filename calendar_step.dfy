/**
 * `java.util.Calendar.add(MONTH, 1)` and `add(YEAR, 1)` abstracted as two
 * functions on millisecond times. Month-end clamping, time zones and
 * daylight saving stay inside them; all the core relies on is that each
 * step moves time strictly forward.
 */
module CalendarStep {
  import opened SubscriptionData

  datatype Calendar = Calendar(addMonth: int -> int, addYear: int -> int)

  /** Both steps strictly increase time. */
  ghost predicate Advances(cal: Calendar) {
    && (forall t :: cal.addMonth(t) > t)
    && (forall t :: cal.addYear(t) > t)
  }

  /** The step taken for a cycle type: one month or one year. */
  function Add(cal: Calendar, cycle: CycleType, t: int): (r: int)
    ensures Advances(cal) ==> r > t
  {
    match cycle
    case Monthly => cal.addMonth(t)
    case Yearly => cal.addYear(t)
  }

  /** `t` advanced by `k` steps of `cycle`. */
  function Iterate(cal: Calendar, cycle: CycleType, t: int, k: nat): int {
    if k == 0 then t else Add(cal, cycle, Iterate(cal, cycle, t, k - 1))
  }

  /** Stepping first and then k times is stepping k + 1 times. */
  lemma {:induction false} IterateShift(cal: Calendar, cycle: CycleType, t: int, k: nat)
    ensures Iterate(cal, cycle, Add(cal, cycle, t), k) == Iterate(cal, cycle, t, k + 1)
  {
    if k > 0 {
      IterateShift(cal, cycle, t, k - 1);
    }
  }

  /** More steps reach strictly later times. */
  lemma {:induction false} IterateIncreasing(cal: Calendar, cycle: CycleType, t: int, j: nat, k: nat)
    requires Advances(cal)
    requires j < k
    ensures Iterate(cal, cycle, t, j) < Iterate(cal, cycle, t, k)
    ensures Iterate(cal, cycle, t, k) >= t + k
  {
    if k > 0 && j < k - 1 {
      IterateIncreasing(cal, cycle, t, j, k - 1);
    } else if k > 1 {
      IterateIncreasing(cal, cycle, t, 0, k - 1);
    }
  }
}
