/**
 * The two reminders of the tank screen (feeding and water change). Each is a
 * countdown in seconds plus a "fired" flag. Once a second every countdown is
 * ticked: a positive counter goes down by one; a counter that is already 0
 * stays at 0 and sets its flag. So the flag is set one tick AFTER the counter
 * reaches 0, and nothing ever clears it.
 */
module Reminders {

  /** Initial feed countdown: 30 minutes. */
  const FeedStart: int := 1800
  /** Initial water-change countdown: 19 minutes. */
  const WaterChangeStart: int := 1140

  /** One reminder record. The counter is a JavaScript number, so `int`:
      staying non-negative is a property proved below, not a type fact. */
  datatype Countdown = Countdown(remaining: int, fired: bool)

  /** What one tick does to one record. */
  function Step(c: Countdown): (r: Countdown)
    ensures r.remaining <= c.remaining
    ensures c.fired ==> r.fired
  {
    if c.remaining == 0 then Countdown(0, true) else Countdown(c.remaining - 1, c.fired)
  }

  /** The record after n ticks. Ticking never adds time. */
  function Run(c: Countdown, n: nat): (r: Countdown)
    ensures r.remaining <= c.remaining
  {
    if n == 0 then c else Step(Run(c, n - 1))
  }

  /** A tick on a positive counter takes exactly one second off and leaves the flag alone. */
  lemma StepPositive(c: Countdown)
    requires c.remaining > 0
    ensures Step(c).remaining == c.remaining - 1 && Step(c).fired == c.fired
  {
  }

  /** A tick on a zero counter keeps it at zero and fires the reminder. */
  lemma StepZero(c: Countdown)
    requires c.remaining == 0
    ensures Step(c) == Countdown(0, true)
  {
  }

  /** A tick never sets the flag back to false. */
  lemma StepKeepsFired(c: Countdown)
    requires c.fired
    ensures Step(c).fired
  {
  }

  /** From a non-negative counter a tick never goes below zero and never adds time. */
  lemma StepBounded(c: Countdown)
    requires c.remaining >= 0
    ensures 0 <= Step(c).remaining <= c.remaining
  {
  }

  /** The latch holds over any number of ticks. */
  lemma {:induction false} FiredStaysFired(c: Countdown, n: nat)
    requires c.fired
    ensures Run(c, n).fired
  {
    if n > 0 {
      FiredStaysFired(c, n - 1);
    }
  }

  /** Counters that start non-negative stay non-negative and only ever go down. */
  lemma {:induction false} NeverNegative(c: Countdown, n: nat)
    requires c.remaining >= 0
    ensures 0 <= Run(c, n).remaining <= c.remaining
  {
    if n > 0 {
      NeverNegative(c, n - 1);
    }
  }

  /** Closed form from an unfired start v: the counter runs down one per tick
      to 0, and the flag is false until tick v + 1, true from then on. */
  lemma {:induction false} RunFromStart(v: nat, n: nat)
    ensures Run(Countdown(v, false), n)
         == if n <= v then Countdown(v - n, false) else Countdown(0, true)
  {
    if n > 0 {
      RunFromStart(v, n - 1);
    }
  }

  /** The reminder fires for the first time on tick v + 1, not on tick v when the
      counter reaches 0. */
  lemma FirstFiresAfterZero(v: nat)
    ensures Run(Countdown(v, false), v) == Countdown(0, false)
    ensures Run(Countdown(v, false), v + 1) == Countdown(0, true)
    ensures forall n: nat :: Run(Countdown(v, false), n).fired <==> n > v
  {
    RunFromStart(v, v);
    RunFromStart(v, v + 1);
    forall n: nat ensures Run(Countdown(v, false), n).fired <==> n > v {
      RunFromStart(v, n);
    }
  }

  /** The screen's reminder state: both countdowns and both flags, updated in
      place once per tick. `ticks` records how many ticks have run since start. */
  class ReminderScheduler {
    var feedCountdown: int
    var waterChangeCountdown: int
    var feedReminder: bool
    var waterChangeReminder: bool
    ghost var ticks: nat

    function Feed(): Countdown
      reads this
    {
      Countdown(feedCountdown, feedReminder)
    }

    function WaterChange(): Countdown
      reads this
    {
      Countdown(waterChangeCountdown, waterChangeReminder)
    }

    /** Both records are where `ticks` ticks from the initial constants put them. */
    ghost predicate Valid()
      reads this
    {
      Feed() == Run(Countdown(FeedStart, false), ticks)
      && WaterChange() == Run(Countdown(WaterChangeStart, false), ticks)
    }

    /** Initial state: 1800 s to feeding, 1140 s to water change, nothing fired. */
    constructor ()
      ensures Valid() && ticks == 0
      ensures feedCountdown == 1800 && waterChangeCountdown == 1140
      ensures !feedReminder && !waterChangeReminder
    {
      feedCountdown, waterChangeCountdown := FeedStart, WaterChangeStart;
      feedReminder, waterChangeReminder := false, false;
      ticks := 0;
    }

    /** One timer tick: each record steps on its own previous value only. */
    method Tick()
      modifies this
      ensures Feed() == Step(old(Feed()))
      ensures WaterChange() == Step(old(WaterChange()))
      ensures ticks == old(ticks) + 1
      ensures old(Valid()) ==> Valid()
    {
      if feedCountdown == 0 {
        feedReminder := true;
        feedCountdown := 0;
      } else {
        feedCountdown := feedCountdown - 1;
      }
      if waterChangeCountdown == 0 {
        waterChangeReminder := true;
        waterChangeCountdown := 0;
      } else {
        waterChangeCountdown := waterChangeCountdown - 1;
      }
      ticks := ticks + 1;
    }

    /** In every reachable state the counters are the start values minus the
        ticks, floored at 0, and a flag is set exactly when more ticks than its
        start value have run. */
    lemma ReachableState()
      requires Valid()
      ensures feedCountdown == if ticks <= FeedStart then FeedStart - ticks else 0
      ensures waterChangeCountdown == if ticks <= WaterChangeStart then WaterChangeStart - ticks else 0
      ensures feedReminder <==> ticks > FeedStart
      ensures waterChangeReminder <==> ticks > WaterChangeStart
      ensures feedCountdown >= 0 && waterChangeCountdown >= 0
    {
      RunFromStart(FeedStart, ticks);
      RunFromStart(WaterChangeStart, ticks);
    }
  }
}
