/**
 * The `Subscription` record of `com.example.renewly.data`, with its
 * default values and `copy(id = ...)`, and the billing-cycle type the
 * screens derive from `cycleInDays`.
 */
module SubscriptionData {
  import opened Wrappers

  /** `CycleType`: the coarse cycle the screens offer. */
  datatype CycleType = Monthly | Yearly

  /**
   * One stored subscription. `price` is a Kotlin `Double`, kept opaque as a
   * `real`; times are milliseconds since the epoch (`Long`). The fields
   * `startDate`, `iconUri` and `colorHex` are the ones the screens read and
   * write beside the declared ones.
   */
  datatype Subscription = Subscription(
    id: string,
    name: string,
    price: real,
    cycleInDays: int,
    startDate: int,
    nextDueDate: int,
    notes: Option<string>,
    iconKey: string,
    iconUri: Option<string>,
    colorHex: Option<string>)

  const DefaultIconKey: string := "🧩"
  const DefaultCycleInDays: int := 30

  /**
   * `Subscription()` with every argument defaulted; `clock` is the value of
   * `System.currentTimeMillis()` at construction.
   */
  function NewSubscription(clock: int): (s: Subscription)
    ensures s.id == "" && s.name == "" && s.price == 0.0
    ensures s.notes == None && s.iconKey == DefaultIconKey
    ensures s.nextDueDate == clock
    ensures CycleOf(s.cycleInDays) == Monthly && CycleDays(Monthly) == s.cycleInDays
  {
    Subscription("", "", 0.0, DefaultCycleInDays, clock, clock, None, DefaultIconKey, None, None)
  }

  /** Every field but `id` agrees. */
  predicate SameExceptId(a: Subscription, b: Subscription) {
    && a.name == b.name && a.price == b.price && a.cycleInDays == b.cycleInDays
    && a.startDate == b.startDate && a.nextDueDate == b.nextDueDate
    && a.notes == b.notes && a.iconKey == b.iconKey
    && a.iconUri == b.iconUri && a.colorHex == b.colorHex
  }

  /** `s.copy(id = id)`. */
  function WithId(s: Subscription, id: string): (r: Subscription)
    ensures r.id == id && SameExceptId(r, s)
  {
    s.(id := id)
  }

  /** Replacing the id twice keeps only the second; replacing it by itself changes nothing. */
  lemma WithIdLaws(s: Subscription, x: string, y: string)
    ensures WithId(WithId(s, x), y) == WithId(s, y)
    ensures WithId(s, s.id) == s
    ensures WithId(s, x) == s <==> s.id == x
  {
  }

  /** The screens' reading of `cycleInDays`: 365 days or more is a yearly plan. */
  function CycleOf(cycleInDays: int): (c: CycleType)
    ensures c == Yearly <==> cycleInDays >= 365
  {
    if cycleInDays >= 365 then Yearly else Monthly
  }

  /** The number of days the edit screen stores for a cycle type. */
  function CycleDays(c: CycleType): (d: int)
    ensures d == 30 || d == 365
    ensures CycleOf(d) == c
  {
    match c
    case Yearly => 365
    case Monthly => 30
  }

  /**
   * Storing then reading a cycle type gives it back; reading then storing a
   * day count gives it back exactly for the two stored values.
   */
  lemma CycleRoundTrip(c: CycleType, d: int)
    ensures CycleOf(CycleDays(c)) == c
    ensures CycleDays(CycleOf(d)) == d <==> d == 30 || d == 365
  {
  }
}
