/**
 * The logic of the subscription list: the countdown's next-due loop and
 * its days/hours split (`CountdownText`), and the card's icon and cycle
 * choice (`SubscriptionCard`).
 */
module SubscriptionListScreen {
  import opened Wrappers
  import opened Text
  import opened SubscriptionData
  import opened CalendarStep

  const DayMillis: int := 86400000
  const HourMillis: int := 3600000

  /**
   * The first time reached from `t` by whole cycles that lies strictly
   * after `now` (`t` itself when it already does).
   */
  function NextStrictlyAfter(cal: Calendar, cycle: CycleType, t: int, now: int): (r: int)
    requires Advances(cal)
    ensures r > now
    ensures t > now ==> r == t
    ensures r >= t
    decreases if t > now then 0 else now - t + 1
  {
    if t > now then t else NextStrictlyAfter(cal, cycle, Add(cal, cycle, t), now)
  }

  /**
   * `r` is `t` advanced by `k` steps, and every earlier step is at or
   * before `now`.
   */
  ghost predicate FirstStepPast(cal: Calendar, cycle: CycleType, t: int, now: int, r: int, k: nat) {
    && r == Iterate(cal, cycle, t, k)
    && (forall j: nat :: j < k ==> Iterate(cal, cycle, t, j) <= now)
  }

  /**
   * The loop ends after the least number of steps k that passes `now`:
   * every earlier step is at or before `now`.
   */
  lemma {:induction false} NextStrictlyAfterIsLeastStep(cal: Calendar, cycle: CycleType, t: int, now: int)
    requires Advances(cal)
    ensures exists k: nat :: FirstStepPast(cal, cycle, t, now, NextStrictlyAfter(cal, cycle, t, now), k)
    decreases if t > now then 0 else now - t + 1
  {
    var r := NextStrictlyAfter(cal, cycle, t, now);
    if t > now {
      assert FirstStepPast(cal, cycle, t, now, r, 0);
    } else {
      var t' := Add(cal, cycle, t);
      NextStrictlyAfterIsLeastStep(cal, cycle, t', now);
      var k: nat :| FirstStepPast(cal, cycle, t', now, r, k);
      IterateShift(cal, cycle, t, k);
      forall j: nat | j < k + 1
        ensures Iterate(cal, cycle, t, j) <= now
      {
        if j > 0 {
          IterateShift(cal, cycle, t, j - 1);
          assert Iterate(cal, cycle, t', j - 1) <= now;
        }
      }
      assert FirstStepPast(cal, cycle, t, now, r, k + 1);
    }
  }

  /**
   * `while (!cal.after(current)) cal.add(...)`: step the start time by the
   * cycle until it is strictly after `now`.
   */
  method NextDue(startMillis: int, cycle: CycleType, now: int, cal: Calendar) returns (nextDue: int)
    requires Advances(cal)
    ensures nextDue == NextStrictlyAfter(cal, cycle, startMillis, now)
    ensures nextDue > now
    ensures startMillis > now ==> nextDue == startMillis
  {
    nextDue := startMillis;
    while nextDue <= now
      invariant NextStrictlyAfter(cal, cycle, nextDue, now) == NextStrictlyAfter(cal, cycle, startMillis, now)
      invariant nextDue >= startMillis
      decreases now - nextDue + 1
    {
      nextDue := Add(cal, cycle, nextDue);
    }
  }

  /** The countdown text: "Due!", or whole days and remaining whole hours. */
  datatype Countdown = DueNow | Remaining(days: nat, hours: nat)

  /**
   * `diff = (nextDue - now).coerceAtLeast(0)`, then `toDays` and `toHours`
   * of the rest: days and hours are the whole units that fit into the
   * remaining time, and "Due!" is shown exactly when nothing remains.
   */
  function Split(nextDue: int, now: int): (r: Countdown)
    ensures r.DueNow? <==> nextDue <= now
    ensures r.Remaining? ==> && r.hours < 24
                             && r.days * DayMillis + r.hours * HourMillis <= nextDue - now
                             && nextDue - now < r.days * DayMillis + (r.hours + 1) * HourMillis
  {
    var diff := if nextDue - now > 0 then nextDue - now else 0;
    var d := diff / DayMillis;
    var h := (diff - d * DayMillis) / HourMillis;
    if diff == 0 then DueNow else Remaining(d, h)
  }

  /**
   * `CountdownText`: the loop followed by the split. Because the loop only
   * stops strictly after `now`, the "Due!" branch is never taken.
   */
  method CountdownText(startMillis: int, cycle: CycleType, now: int, cal: Calendar) returns (shown: Countdown)
    requires Advances(cal)
    ensures shown == Split(NextStrictlyAfter(cal, cycle, startMillis, now), now)
    ensures shown.Remaining?
  {
    var nextDue := NextDue(startMillis, cycle, now, cal);
    shown := Split(nextDue, now);
  }

  /** The card's leading icon: a remote image, or up to two glyphs of `iconKey`. */
  datatype IconView = Image(url: string) | Glyph(text: string)

  /**
   * `!iconUri.isNullOrEmpty() && iconUri.startsWith("http")`: the emptiness
   * test is subsumed by the prefix test.
   */
  function CardIcon(sub: Subscription): (r: IconView)
    ensures r.Image? <==> sub.iconUri.Some? && StartsWith(sub.iconUri.value, "http")
    ensures r.Image? ==> r.url == sub.iconUri.value
    ensures r.Glyph? ==> r.text <= sub.iconKey && |r.text| == if |sub.iconKey| < 2 then |sub.iconKey| else 2
  {
    if sub.iconUri.Some? && sub.iconUri.value != "" && StartsWith(sub.iconUri.value, "http") then
      Image(sub.iconUri.value)
    else
      Glyph(Take(sub.iconKey, 2))
  }
}
