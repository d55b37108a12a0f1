/** Request quotas of one upstream under interleaved requests
    (src/proxy/rate_limiter.rs, `UpstreamWindow` and `UpstreamRateLimiter`). */
module UpstreamLimiter {
  import opened Wrappers
  import opened Calendar

  datatype Limits = Limits(daily: int, monthly: int)

  /** The counters of a window. */
  datatype Counters = Counters(daily: int, monthly: int, date: Date, month: int)

  function Fresh(today: Date): Counters {
    Counters(0, 0, today, today.month)
  }

  function Rolled(c: Counters, today: Date): Counters {
    var daily, monthly := if c.date != today then 0 else c.daily, if c.month != today.month then 0 else c.monthly;
    Counters(daily, monthly, today, today.month)
  }

  predicate Allows(c: Counters, limits: Limits) {
    !(limits.daily > 0 && c.daily >= limits.daily) && !(limits.monthly > 0 && c.monthly >= limits.monthly)
  }

  class UpstreamWindow {
    var dailyRequests: int
    var monthlyRequests: int
    var dailyDate: Date
    var monthlyDate: int

    ghost function Now(): Counters
      reads this
    {
      Counters(dailyRequests, monthlyRequests, dailyDate, monthlyDate)
    }

    constructor (today: Date)
      ensures Now() == Fresh(today)
    {
      dailyRequests, monthlyRequests, dailyDate, monthlyDate := 0, 0, today, today.month;
    }

    method Cleanup(today: Date)
      modifies this
      ensures Now() == Rolled(old(Now()), today)
    {
      if dailyDate != today {
        dailyRequests := 0;
        dailyDate := today;
      }
      if monthlyDate != today.month {
        monthlyRequests := 0;
        monthlyDate := today.month;
      }
    }

    method CheckLimit(limits: Limits, today: Date) returns (ok: bool)
      modifies this
      ensures Now() == Rolled(old(Now()), today)
      ensures ok == Allows(Now(), limits)
    {
      Cleanup(today);
      if limits.daily > 0 && dailyRequests >= limits.daily {
        return false;
      }
      if limits.monthly > 0 && monthlyRequests >= limits.monthly {
        return false;
      }
      return true;
    }

    method RecordUsage(today: Date)
      modifies this
      ensures var c := Rolled(old(Now()), today);
              Now() == c.(daily := c.daily + 1, monthly := c.monthly + 1)
    {
      Cleanup(today);
      dailyRequests := dailyRequests + 1;
      monthlyRequests := monthlyRequests + 1;
    }
  }

  // ---------------------------------------------------------------- interleaved requests

  /** One upstream at work: its window (absent until first used, and after a reset), the requests that
      were admitted but are not finished, the dates of the completions recorded since the last reset,
      and the current date. */
  datatype State = State(window: Option<Counters>, inFlight: nat, done: seq<Date>, today: Date)

  /** A request asks for admission, completes, or fails; the date moves on; an administrator resets. */
  datatype Step = Ask | Complete | Fail | Advance(to: Date) | Reset

  function Current(s: State): Counters {
    if s.window.Some? then Rolled(s.window.value, s.today) else Rolled(Fresh(s.today), s.today)
  }

  /** Steps that cannot happen leave the state alone: nothing in flight to finish, a clock that would go
      back, or an admission beyond `capacity` requests in flight. */
  function Perform(limits: Limits, capacity: nat, s: State, step: Step): State {
    match step
    case Ask =>
      if s.inFlight >= capacity then s
      else
        var c := Current(s);
        s.(window := Some(c), inFlight := if Allows(c, limits) then s.inFlight + 1 else s.inFlight)
    case Complete =>
      if s.inFlight == 0 then s
      else
        var c := Current(s);
        s.(window := Some(c.(daily := c.daily + 1, monthly := c.monthly + 1)), inFlight := s.inFlight - 1,
           done := s.done + [s.today])
    case Fail => if s.inFlight == 0 then s else s.(inFlight := s.inFlight - 1)
    case Advance(to) => if s.today.NotAfter(to) then s.(today := to) else s
    case Reset => s.(window := None, done := [])
  }

  function Run(limits: Limits, capacity: nat, s: State, steps: seq<Step>): State {
    if steps == [] then s
    else Perform(limits, capacity, Run(limits, capacity, s, steps[..|steps| - 1]), steps[|steps| - 1])
  }

  function Start(today: Date): State {
    State(None, 0, [], today)
  }

  /** Counters never run ahead of the limit by more than the requests in flight allow. */
  ghost predicate Bounded(limits: Limits, capacity: nat, s: State) {
    && s.inFlight <= capacity
    && (s.window.Some? ==>
          && (limits.daily > 0 ==> s.window.value.daily + s.inFlight <= limits.daily - 1 + capacity)
          && (limits.monthly > 0 ==> s.window.value.monthly + s.inFlight <= limits.monthly - 1 + capacity))
  }

  /** The counters are the completions recorded on their date and in their month. */
  ghost predicate Exact(s: State) {
    && (s.window.None? ==> s.done == [])
    && (s.window.Some? ==>
          var c := s.window.value;
          && c.date.NotAfter(s.today) && c.month == c.date.month
          && (forall i :: 0 <= i < |s.done| ==> s.done[i].NotAfter(c.date))
          && c.daily == CountOn(s.done, c.date) && c.monthly == CountIn(s.done, c.month))
  }

  /** No day and no month has more recorded completions than the limit minus one plus the capacity. */
  ghost predicate WithinOvershoot(limits: Limits, capacity: nat, s: State) {
    && (limits.daily > 0 ==> forall d :: CountOn(s.done, d) <= limits.daily - 1 + capacity)
    && (limits.monthly > 0 ==> forall m :: CountIn(s.done, m) <= limits.monthly - 1 + capacity)
  }

  lemma BoundedIsKept(limits: Limits, capacity: nat, s: State, step: Step)
    requires Bounded(limits, capacity, s)
    ensures Bounded(limits, capacity, Perform(limits, capacity, s, step))
  {
  }

  lemma RollingIsExact(s: State)
    requires Exact(s)
    ensures var c := Current(s);
            && c.daily == CountOn(s.done, s.today) && c.monthly == CountIn(s.done, s.today.month)
            && forall i :: 0 <= i < |s.done| ==> s.done[i].NotAfter(s.today)
  {
    if s.window.Some? {
      var c := s.window.value;
      if c.date != s.today {
        assert s.today !in s.done;
        CountZero(s.done, s.today);
      }
      if c.month != s.today.month {
        CountZero(s.done, s.today);
      }
    }
  }

  lemma ExactIsKept(limits: Limits, capacity: nat, s: State, step: Step)
    requires Exact(s)
    ensures Exact(Perform(limits, capacity, s, step))
  {
    RollingIsExact(s);
    CountSnoc(s.done, s.today);
  }

  lemma OvershootIsKept(limits: Limits, capacity: nat, s: State, step: Step)
    requires Bounded(limits, capacity, s) && Exact(s) && WithinOvershoot(limits, capacity, s)
    ensures WithinOvershoot(limits, capacity, Perform(limits, capacity, s, step))
  {
    RollingIsExact(s);
    BoundedIsKept(limits, capacity, s, step);
    CountSnoc(s.done, s.today);
  }

  /** Overshoot bound: whatever the interleaving of admissions, completions, failures, date changes and
      resets, with at most `capacity` requests in flight, the counters stay exact and, together with the
      requests in flight, at most `capacity - 1` above the limit; so does every single day and month. */
  lemma {:induction false} OvershootIsBounded(limits: Limits, capacity: nat, today: Date, steps: seq<Step>)
    ensures var s := Run(limits, capacity, Start(today), steps);
            Bounded(limits, capacity, s) && Exact(s) && WithinOvershoot(limits, capacity, s)
  {
    if steps == [] {
    } else {
      var before := Run(limits, capacity, Start(today), steps[..|steps| - 1]);
      OvershootIsBounded(limits, capacity, today, steps[..|steps| - 1]);
      BoundedIsKept(limits, capacity, before, steps[|steps| - 1]);
      ExactIsKept(limits, capacity, before, steps[|steps| - 1]);
      OvershootIsKept(limits, capacity, before, steps[|steps| - 1]);
    }
  }

  // ---------------------------------------------------------------- the bound is attained

  function Repeat(step: Step, n: nat): seq<Step> {
    seq(n, _ => step)
  }

  lemma {:induction false} RunConcat(limits: Limits, capacity: nat, s: State, a: seq<Step>, b: seq<Step>)
    ensures Run(limits, capacity, s, a + b) == Run(limits, capacity, Run(limits, capacity, s, a), b)
  {
    if b == [] {
      assert a + b == a;
    } else {
      assert (a + b)[..|a + b| - 1] == a + b[..|b| - 1];
      RunConcat(limits, capacity, s, a, b[..|b| - 1]);
    }
  }

  /** The counters of the current date, which no earlier check ran ahead of. */
  ghost predicate At(s: State, daily: int, monthly: int, inFlight: nat, today: Date) {
    && s.inFlight == inFlight && s.today == today
    && Current(s).daily == daily && Current(s).monthly == monthly
    && (s.window.Some? ==> s.window.value.date.NotAfter(today) && s.window.value.month == s.window.value.date.month)
  }

  /** Counts at which one more request is admitted. */
  ghost predicate Room(limits: Limits, daily: int, monthly: int) {
    (limits.daily > 0 ==> daily < limits.daily) && (limits.monthly > 0 ==> monthly < limits.monthly)
  }

  lemma {:induction false} AskMany(limits: Limits, capacity: nat, s: State, d: int, m: int, n: nat, today: Date)
    requires Room(limits, d, m) && At(s, d, m, 0, today) && n <= capacity
    ensures At(Run(limits, capacity, s, Repeat(Ask, n)), d, m, n, today)
  {
    if n == 0 {
    } else {
      AskMany(limits, capacity, s, d, m, n - 1, today);
      assert Repeat(Ask, n)[..n - 1] == Repeat(Ask, n - 1);
    }
  }

  lemma {:induction false} CompleteMany(limits: Limits, capacity: nat, s: State, d: int, m: int, n: nat, k: nat,
                                        today: Date)
    requires At(s, d, m, n, today) && k <= n
    ensures At(Run(limits, capacity, s, Repeat(Complete, k)), d + k, m + k, n - k, today)
  {
    if k == 0 {
    } else {
      CompleteMany(limits, capacity, s, d, m, n, k - 1, today);
      assert Repeat(Complete, k)[..k - 1] == Repeat(Complete, k - 1);
    }
  }

  /** As many requests as the capacity allows are admitted at once, and complete. */
  lemma Burst(limits: Limits, capacity: nat, s: State, d: int, m: int, n: nat, today: Date)
    returns (steps: seq<Step>)
    requires Room(limits, d, m) && At(s, d, m, 0, today) && n <= capacity
    ensures At(Run(limits, capacity, s, steps), d + n, m + n, 0, today)
  {
    AskMany(limits, capacity, s, d, m, n, today);
    var asked := Run(limits, capacity, s, Repeat(Ask, n));
    CompleteMany(limits, capacity, asked, d, m, n, n, today);
    RunConcat(limits, capacity, s, Repeat(Ask, n), Repeat(Complete, n));
    steps := Repeat(Ask, n) + Repeat(Complete, n);
  }

  /** One request after the other, as long as there is room. */
  lemma {:induction false} OneByOne(limits: Limits, capacity: nat, s: State, d: int, m: int, n: nat, today: Date)
    returns (steps: seq<Step>)
    requires At(s, d, m, 0, today) && capacity > 0 && (n > 0 ==> Room(limits, d + n - 1, m + n - 1))
    ensures At(Run(limits, capacity, s, steps), d + n, m + n, 0, today)
  {
    if n == 0 {
      steps := [];
    } else {
      var before := OneByOne(limits, capacity, s, d, m, n - 1, today);
      var last := Burst(limits, capacity, Run(limits, capacity, s, before), d + n - 1, m + n - 1, 1, today);
      RunConcat(limits, capacity, s, before, last);
      steps := before + last;
    }
  }

  function Later(date: Date, days: nat): Date {
    Date(date.month, date.day + days)
  }

  lemma NextDay(limits: Limits, capacity: nat, s: State, d: int, m: int, today: Date)
    requires At(s, d, m, 0, today)
    ensures At(Run(limits, capacity, s, [Advance(Later(today, 1))]), 0, m, 0, Later(today, 1))
  {
    assert [Advance(Later(today, 1))][..0] == [];
    var to := Later(today, 1);
    assert Run(limits, capacity, s, [Advance(to)]) == s.(today := to);
  }

  /** Full days, one after the other, as long as the month has room. */
  lemma {:induction false} FullDays(limits: Limits, capacity: nat, today: Date, days: nat, m: int)
    returns (steps: seq<Step>)
    requires limits.daily > 0 && capacity > 0 && m == days * limits.daily
    requires limits.monthly > 0 ==> m <= limits.monthly
    ensures At(Run(limits, capacity, Start(today), steps), 0, m, 0, Later(today, days))
  {
    if days == 0 {
      steps := [];
    } else {
      var before, n := m - limits.daily, limits.daily;
      assert before == (days - 1) * limits.daily;
      var first := FullDays(limits, capacity, today, days - 1, before);
      var s := Run(limits, capacity, Start(today), first);
      var day := OneByOne(limits, capacity, s, 0, before, n, Later(today, days - 1));
      var s' := Run(limits, capacity, s, day);
      NextDay(limits, capacity, s', n, m, Later(today, days - 1));
      RunConcat(limits, capacity, Start(today), first, day);
      RunConcat(limits, capacity, Start(today), first + day, [Advance(Later(today, days))]);
      steps := first + day + [Advance(Later(today, days))];
    }
  }

  /** Room for `n` more requests, and then a burst of `capacity` in place of the last one. */
  lemma OvershootFrom(limits: Limits, capacity: nat, before: seq<Step>, d: int, m: int, n: nat, today: Date, day: Date)
    returns (steps: seq<Step>)
    requires At(Run(limits, capacity, Start(today), before), d, m, 0, day) && capacity > 0
    requires Room(limits, d + n, m + n)
    ensures At(Run(limits, capacity, Start(today), steps), d + n + capacity, m + n + capacity, 0, day)
  {
    var s := Run(limits, capacity, Start(today), before);
    var fill := OneByOne(limits, capacity, s, d, m, n, day);
    var burst := Burst(limits, capacity, Run(limits, capacity, s, fill), d + n, m + n, capacity, day);
    RunConcat(limits, capacity, Start(today), before, fill);
    RunConcat(limits, capacity, Start(today), before + fill, burst);
    steps := before + fill + burst;
  }

  /** The days it takes to fill a month up to one request below its limit. */
  function DaysToFill(limits: Limits): nat
    requires limits.monthly > 0
  {
    if limits.daily > 0 then (limits.monthly - 1) / limits.daily else 0
  }

  /** The bound on a month is attained, whatever the limit on a day: the month is filled to one below its
      limit with full days, and the rest on the next day with a burst. */
  lemma MonthlyOvershootIsAttained(limits: Limits, capacity: nat, today: Date) returns (steps: seq<Step>)
    requires limits.monthly > 0 && capacity > 0
    ensures var s := Run(limits, capacity, Start(today), steps);
            && Current(s).monthly == limits.monthly - 1 + capacity && s.inFlight == 0
            && s.today == Later(today, DaysToFill(limits))
  {
    var days, full := DaysToFill(limits), 0;
    var before := [];
    if limits.daily > 0 {
      full := days * limits.daily;
      assert full + (limits.monthly - 1) % limits.daily == limits.monthly - 1;
      before := FullDays(limits, capacity, today, days, full);
    }
    steps := OvershootFrom(limits, capacity, before, 0, full, limits.monthly - 1 - full, today, Later(today, days));
  }

  ghost predicate Attains(limits: Limits, capacity: nat, today: Date, steps: seq<Step>) {
    Current(Run(limits, capacity, Start(today), steps)).daily == limits.daily - 1 + capacity
  }

  /** The bound on a day is attained by some run if and only if the month does not cut it off. */
  lemma DailyOvershootIsAttainedIff(limits: Limits, capacity: nat, today: Date)
    requires limits.daily > 0 && capacity > 0
    ensures (exists steps :: Attains(limits, capacity, today, steps)) <==>
             limits.monthly <= 0 || limits.daily <= limits.monthly
  {
    if limits.monthly <= 0 || limits.daily <= limits.monthly {
      var steps := OvershootFrom(limits, capacity, [], 0, 0, limits.daily - 1, today, today);
      assert Attains(limits, capacity, today, steps);
    } else {
      forall steps ensures !Attains(limits, capacity, today, steps) {
        MonthCutsOff(limits, capacity, today, steps);
      }
    }
  }

  lemma {:induction false} DayWithinMonth(dates: seq<Date>, date: Date)
    ensures CountOn(dates, date) <= CountIn(dates, date.month)
  {
    if dates == [] {
    } else {
      DayWithinMonth(dates[..|dates| - 1], date);
    }
  }

  lemma MonthCutsOff(limits: Limits, capacity: nat, today: Date, steps: seq<Step>)
    requires limits.monthly > 0
    ensures Current(Run(limits, capacity, Start(today), steps)).daily <= limits.monthly - 1 + capacity
  {
    var s := Run(limits, capacity, Start(today), steps);
    OvershootIsBounded(limits, capacity, today, steps);
    RollingIsExact(s);
    DayWithinMonth(s.done, s.today);
  }
}
