/** Per-key sliding windows (src/proxy/rate_limiter.rs, `SlidingWindow` and `RateLimiter`). */
module RateLimiter {
  import opened Wrappers
  import opened Text

  type Id = nat

  // ---------------------------------------------------------------- the plain log a window stands for

  /** One recorded usage; the code reads the clock once for the request and once for the tokens. */
  datatype Usage = Usage(requestAt: int, tokensAt: int, tokens: int)

  function Keep<T>(at: T -> int, x: T, cutoff: int): seq<T> {
    if at(x) >= cutoff then [x] else []
  }

  /** The elements not older than a cutoff. */
  function Since<T>(at: T -> int, xs: seq<T>, cutoff: int): seq<T> {
    if xs == [] then []
    else Keep(at, xs[0], cutoff) + Since(at, xs[1..], cutoff)
  }

  ghost predicate Ordered<T>(at: T -> int, xs: seq<T>) {
    forall i, j :: 0 <= i < j < |xs| ==> at(xs[i]) <= at(xs[j])
  }

  function Moment(t: int): int { t }

  function TokenMoment(p: (int, int)): int { p.0 }

  function RequestTimes(log: seq<Usage>): seq<int> {
    seq(|log|, i requires 0 <= i < |log| => log[i].requestAt)
  }

  function TokenTimes(log: seq<Usage>): seq<(int, int)> {
    seq(|log|, i requires 0 <= i < |log| => (log[i].tokensAt, log[i].tokens))
  }

  function Sum(tokens: seq<(int, int)>): int {
    if tokens == [] then 0 else Sum(tokens[..|tokens| - 1]) + tokens[|tokens| - 1].1
  }

  lemma {:induction false} SinceOfOrdered<T>(at: T -> int, xs: seq<T>, cutoff: int)
    requires Ordered(at, xs) && (xs != [] ==> at(xs[0]) >= cutoff)
    ensures Since(at, xs, cutoff) == xs
  {
    if xs == [] {
    } else {
      SinceOfOrdered(at, xs[1..], cutoff);
    }
  }

  lemma SinceCons<T>(at: T -> int, x: T, rest: seq<T>, cutoff: int)
    ensures Since(at, [x] + rest, cutoff) == Keep(at, x, cutoff) + Since(at, rest, cutoff)
  {
    assert ([x] + rest)[1..] == rest;
  }

  lemma SinceSnocStep<T>(at: T -> int, first: T, rest: seq<T>, x: T, cutoff: int)
    requires Since(at, rest + [x], cutoff) == Since(at, rest, cutoff) + Keep(at, x, cutoff)
    ensures Since(at, [first] + rest + [x], cutoff) == Since(at, [first] + rest, cutoff) + Keep(at, x, cutoff)
  {
    Assoc([first], rest, [x]);
    SinceCons(at, first, rest, cutoff);
    SinceCons(at, first, rest + [x], cutoff);
    Assoc(Keep(at, first, cutoff), Since(at, rest, cutoff), Keep(at, x, cutoff));
  }

  lemma {:induction false} SinceSnoc<T>(at: T -> int, xs: seq<T>, x: T, cutoff: int)
    ensures Since(at, xs + [x], cutoff) == Since(at, xs, cutoff) + Keep(at, x, cutoff)
  {
    if xs == [] {
      SinceCons(at, x, [], cutoff);
      assert [] + [x] == [x] + [];
      assert Keep(at, x, cutoff) + [] == [] + Keep(at, x, cutoff);
    } else {
      SinceSnoc(at, xs[1..], x, cutoff);
      SinceSnocStep(at, xs[0], xs[1..], x, cutoff);
      assert xs == [xs[0]] + xs[1..];
    }
  }

  /** Narrowing the window in two steps is narrowing it once. */
  lemma {:induction false} SinceTwice<T>(at: T -> int, xs: seq<T>, early: int, late: int)
    requires early <= late
    ensures Since(at, Since(at, xs, early), late) == Since(at, xs, late)
  {
    if xs == [] {
    } else {
      SinceTwice(at, xs[1..], early, late);
      var rest := Since(at, xs[1..], early);
      if at(xs[0]) >= early {
        assert ([xs[0]] + rest)[1..] == rest;
      } else {
        assert [] + rest == rest;
      }
    }
  }

  lemma {:induction false} SinceKeepsOrder<T>(at: T -> int, xs: seq<T>, cutoff: int)
    requires Ordered(at, xs)
    ensures Ordered(at, Since(at, xs, cutoff))
    ensures forall i :: 0 <= i < |Since(at, xs, cutoff)| ==> Since(at, xs, cutoff)[i] in xs
  {
    if xs == [] {
    } else {
      SinceKeepsOrder(at, xs[1..], cutoff);
    }
  }

  /** The pop-front loop of `cleanup`. */
  method DropBefore<T>(at: T -> int, queue: seq<T>, cutoff: int) returns (kept: seq<T>)
    requires Ordered(at, queue)
    ensures kept == Since(at, queue, cutoff)
  {
    kept := queue;
    while kept != [] && at(kept[0]) < cutoff
      invariant Ordered(at, kept) && Since(at, kept, cutoff) == Since(at, queue, cutoff)
    {
      kept := kept[1..];
    }
    SinceOfOrdered(at, kept, cutoff);
  }

  // ---------------------------------------------------------------- the daily counter

  type Day = int

  /** What happened to a window, by day: it was cleaned up (or created), or usage was recorded. */
  datatype DayEvent = Rolled(day: Day) | Recorded(day: Day, tokens: int)

  /** Tokens recorded after the first roll on a day. */
  function SinceRoll(events: seq<DayEvent>, day: Day): int {
    if events == [] then 0
    else
      var init, last := events[..|events| - 1], events[|events| - 1];
      SinceRoll(init, day) + if last.Recorded? && Rolled(day) in init then last.tokens else 0
  }

  /** Tokens recorded on a day before the first roll of that day. */
  function BeforeRoll(events: seq<DayEvent>, day: Day): int {
    if events == [] then 0
    else
      var init, last := events[..|events| - 1], events[|events| - 1];
      BeforeRoll(init, day) + if last.Recorded? && last.day == day && Rolled(day) !in init then last.tokens else 0
  }

  function TokensOn(events: seq<DayEvent>, day: Day): int {
    if events == [] then 0
    else
      var last := events[|events| - 1];
      TokensOn(events[..|events| - 1], day) + if last.Recorded? && last.day == day then last.tokens else 0
  }

  ghost predicate Chronological(events: seq<DayEvent>, today: Day) {
    && (forall i, j :: 0 <= i < j < |events| ==> events[i].day <= events[j].day)
    && (forall i :: 0 <= i < |events| ==> events[i].day <= today)
  }

  /** The daily counter misses exactly what was recorded on the day before the first cleanup of the day:
      `record_usage` does not roll the date. */
  lemma {:induction false} CounterMissesEarlyUsage(events: seq<DayEvent>, today: Day)
    requires Chronological(events, today)
    ensures SinceRoll(events, today) + BeforeRoll(events, today) == TokensOn(events, today)
    ensures (forall i :: 0 <= i < |events| && events[i].Recorded? ==> events[i].tokens >= 0) ==>
              BeforeRoll(events, today) >= 0 && SinceRoll(events, today) <= TokensOn(events, today)
  {
    if events == [] {
    } else {
      var n := |events| - 1;
      CounterMissesEarlyUsage(events[..n], today);
      if Rolled(today) in events[..n] {
        var i :| 0 <= i < n && events[i] == Rolled(today);
        assert events[n].day == today;
      }
    }
  }

  /** A run in which it does: the window is created one day, usage is recorded early the next day, and only
      then does a check clean up. */
  lemma EarlyUsageIsMissed(day: Day, tokens: int)
    ensures var events := [Rolled(day - 1), Recorded(day, tokens), Rolled(day)];
            Chronological(events, day) && TokensOn(events, day) == tokens && SinceRoll(events, day) == 0
  {
    var first, second := [Rolled(day - 1)], [Rolled(day - 1), Recorded(day, tokens)];
    var events := second + [Rolled(day)];
    assert first[..0] == [] && second[..1] == first && events[..2] == second;
    assert events == [Rolled(day - 1), Recorded(day, tokens), Rolled(day)];
    assert SinceRoll(first, day) == 0 && TokensOn(first, day) == 0;
    assert second[|second| - 1] == Recorded(day, tokens) && second[..|second| - 1] == first;
    assert TokensOn(second, day) == TokensOn(first, day) + tokens;
    assert SinceRoll(second, day) == 0 && TokensOn(second, day) == tokens;
  }

  // ---------------------------------------------------------------- the window

  /** The queues hold exactly the logged usage since the cutoff. */
  ghost predicate Windowed(requests: seq<int>, tokens: seq<(int, int)>, log: seq<Usage>, cutoff: int, clock: int) {
    && Ordered(Moment, RequestTimes(log)) && Ordered(TokenMoment, TokenTimes(log))
    && (forall i :: 0 <= i < |log| ==> log[i].requestAt <= clock && log[i].tokensAt <= clock)
    && cutoff <= clock
    && requests == Since(Moment, RequestTimes(log), cutoff)
    && tokens == Since(TokenMoment, TokenTimes(log), cutoff)
  }

  /** The counter holds the tokens recorded since the first roll on its day. */
  ghost predicate Counted(dailyTokens: int, dailyDate: Day, events: seq<DayEvent>, today: Day) {
    && Chronological(events, today) && dailyDate <= today
    && Rolled(dailyDate) in events && (forall d :: Rolled(d) in events ==> d <= dailyDate)
    && dailyTokens == SinceRoll(events, dailyDate)
  }

  lemma WindowNarrows(requests: seq<int>, tokens: seq<(int, int)>, log: seq<Usage>, cutoff: int, clock: int,
                      limit: int, now: int)
    requires Windowed(requests, tokens, log, cutoff, clock) && cutoff <= limit <= now && clock <= now
    ensures Ordered(Moment, requests) && Ordered(TokenMoment, tokens)
    ensures Windowed(Since(Moment, requests, limit), Since(TokenMoment, tokens, limit), log, limit, now)
  {
    SinceKeepsOrder(Moment, RequestTimes(log), cutoff);
    SinceKeepsOrder(TokenMoment, TokenTimes(log), cutoff);
    SinceTwice(Moment, RequestTimes(log), cutoff, limit);
    SinceTwice(TokenMoment, TokenTimes(log), cutoff, limit);
  }

  lemma WindowGrows(requests: seq<int>, tokens: seq<(int, int)>, log: seq<Usage>, cutoff: int, clock: int, u: Usage)
    requires Windowed(requests, tokens, log, cutoff, clock) && clock <= u.requestAt <= u.tokensAt
    ensures Windowed(requests + [u.requestAt], tokens + [(u.tokensAt, u.tokens)], log + [u], cutoff, u.tokensAt)
  {
    assert RequestTimes(log + [u]) == RequestTimes(log) + [u.requestAt];
    assert TokenTimes(log + [u]) == TokenTimes(log) + [(u.tokensAt, u.tokens)];
    SinceSnoc(Moment, RequestTimes(log), u.requestAt, cutoff);
    SinceSnoc(TokenMoment, TokenTimes(log), (u.tokensAt, u.tokens), cutoff);
  }

  lemma {:induction false} NoRollNoCount(events: seq<DayEvent>, day: Day)
    requires Rolled(day) !in events
    ensures SinceRoll(events, day) == 0
  {
    if events == [] {
    } else {
      NoRollNoCount(events[..|events| - 1], day);
    }
  }

  /** A further roll keeps the counter on the same day and starts a later day at zero. */
  lemma CounterRolls(dailyTokens: int, dailyDate: Day, events: seq<DayEvent>, today: Day, date: Day)
    requires Counted(dailyTokens, dailyDate, events, today) && today <= date
    ensures Counted(if dailyDate != date then 0 else dailyTokens, date, events + [Rolled(date)], date)
  {
    var events' := events + [Rolled(date)];
    assert events'[..|events|] == events;
    assert events'[|events|] == Rolled(date);
    if dailyDate != date {
      NoRollNoCount(events, date);
    }
  }

  lemma CounterGrows(dailyTokens: int, dailyDate: Day, events: seq<DayEvent>, today: Day, date: Day, tokens: int)
    requires Counted(dailyTokens, dailyDate, events, today) && today <= date
    ensures Counted(dailyTokens + tokens, dailyDate, events + [Recorded(date, tokens)], date)
  {
    var events' := events + [Recorded(date, tokens)];
    assert events'[..|events|] == events;
    var i :| 0 <= i < |events| && events[i] == Rolled(dailyDate);
    assert events'[i] == Rolled(dailyDate);
  }

  method SumTokens(tokens: seq<(int, int)>) returns (sum: int)
    ensures sum == Sum(tokens)
  {
    sum := 0;
    for i := 0 to |tokens|
      invariant sum == Sum(tokens[..i])
    {
      assert tokens[..i + 1][..i] == tokens[..i];
      sum := sum + tokens[i].1;
    }
    assert tokens[..|tokens|] == tokens;
  }

  // ---------------------------------------------------------------- admission

  datatype Config = Config(rpmLimit: int, tpmLimit: int, dailyLimit: int)

  datatype Verdict = Admitted | RpmExceeded | TpmExceeded | DailyExceeded

  /** The requests and the tokens a full log holds within the window that starts at `cutoff`. */
  function WindowRequests(log: seq<Usage>, cutoff: int): nat {
    |Since(Moment, RequestTimes(log), cutoff)|
  }

  function WindowTokens(log: seq<Usage>, cutoff: int): int {
    Sum(Since(TokenMoment, TokenTimes(log), cutoff))
  }

  /** Admission decided on the full log and the full day history, with no window kept. */
  function VerdictOf(log: seq<Usage>, events: seq<DayEvent>, c: Config, cutoff: int, date: Day): Verdict {
    Limits(c, WindowRequests(log, cutoff), WindowTokens(log, cutoff), SinceRoll(events, date))
  }

  function Limits(c: Config, requests: nat, tokens: int, dailyTokens: int): Verdict {
    if c.rpmLimit > 0 && AsI32(requests) >= c.rpmLimit then RpmExceeded
    else if c.tpmLimit > 0 && tokens >= c.tpmLimit then TpmExceeded
    else if c.dailyLimit > 0 && dailyTokens >= c.dailyLimit then DailyExceeded
    else Admitted
  }

  /** The three comparisons of `check_rate_limit`, in order. */
  method Decide(c: Config, requests: seq<int>, tokens: seq<(int, int)>, dailyTokens: int) returns (verdict: Verdict)
    ensures verdict == Limits(c, |requests|, Sum(tokens), dailyTokens)
  {
    var rpm := AsI32(|requests|);
    if c.rpmLimit > 0 && rpm >= c.rpmLimit {
      return RpmExceeded;
    }
    var tpm := SumTokens(tokens);
    if c.tpmLimit > 0 && tpm >= c.tpmLimit {
      return TpmExceeded;
    }
    if c.dailyLimit > 0 && dailyTokens >= c.dailyLimit {
      return DailyExceeded;
    }
    return Admitted;
  }

  class SlidingWindow {
    var requests: seq<int>
    var tokens: seq<(int, int)>
    var dailyTokens: int
    var dailyDate: Day

    /** Everything ever recorded, what happened by day, and the latest cutoff and times seen. */
    ghost var log: seq<Usage>
    ghost var events: seq<DayEvent>
    ghost var cutoff: int
    ghost var clock: int
    ghost var today: Day

    ghost predicate Valid()
      reads this
    {
      Windowed(requests, tokens, log, cutoff, clock) && Counted(dailyTokens, dailyDate, events, today)
    }

    constructor (now: int, date: Day, ghost windowSecs: nat)
      ensures Valid() && log == [] && events == [Rolled(date)] && clock == now && today == date
              && cutoff == now - windowSecs
    {
      requests, tokens, dailyTokens, dailyDate := [], [], 0, date;
      log, events, cutoff, clock, today := [], [Rolled(date)], now - windowSecs, now, date;
      new;
      assert [Rolled(date)][..0] == [];
    }

    method Cleanup(windowSecs: nat, now: int, date: Day)
      requires Valid() && clock <= now && today <= date && cutoff <= now - windowSecs
      modifies this
      ensures Valid() && log == old(log) && events == old(events) + [Rolled(date)]
      ensures cutoff == now - windowSecs && clock == now && today == date && dailyDate == date
    {
      DropExpired(now - windowSecs, now);
      RollDay(date);
    }

    /** The end of `cleanup`: a new day starts the counter at zero. */
    method RollDay(date: Day)
      requires Counted(dailyTokens, dailyDate, events, today) && today <= date
      modifies this`dailyTokens, this`dailyDate, this`events, this`today
      ensures Counted(dailyTokens, dailyDate, events, today)
      ensures events == old(events) + [Rolled(date)] && today == date && dailyDate == date
    {
      CounterRolls(dailyTokens, dailyDate, events, today, date);
      dailyTokens := if dailyDate != date then 0 else dailyTokens;
      dailyDate := date;
      events, today := events + [Rolled(date)], date;
    }

    /** The two pop-front loops of `cleanup`. */
    method DropExpired(limit: int, now: int)
      requires Windowed(requests, tokens, log, cutoff, clock) && cutoff <= limit <= now && clock <= now
      modifies this`requests, this`tokens, this`cutoff, this`clock
      ensures Windowed(requests, tokens, log, cutoff, clock) && cutoff == limit && clock == now
    {
      WindowNarrows(requests, tokens, log, cutoff, clock, limit, now);
      requests := DropBefore(Moment, requests, limit);
      tokens := DropBefore(TokenMoment, tokens, limit);
      cutoff, clock := limit, now;
    }

    /** The three pushes of `record_usage`. */
    method RecordUsage(u: Usage, date: Day)
      requires Valid() && clock <= u.requestAt <= u.tokensAt && today <= date
      modifies this
      ensures Valid() && log == old(log) + [u] && events == old(events) + [Recorded(date, u.tokens)]
      ensures cutoff == old(cutoff) && clock == u.tokensAt && today == date
      ensures dailyTokens == old(dailyTokens) + u.tokens && dailyDate == old(dailyDate)
    {
      WindowGrows(requests, tokens, log, cutoff, clock, u);
      CounterGrows(dailyTokens, dailyDate, events, today, date, u.tokens);
      requests := requests + [u.requestAt];
      tokens := tokens + [(u.tokensAt, u.tokens)];
      dailyTokens := dailyTokens + u.tokens;
      log, events, clock, today := log + [u], events + [Recorded(date, u.tokens)], u.tokensAt, date;
    }

    /** The decision of `check_rate_limit`, equal to the decision on the full log. */
    method CheckRateLimit(config: Config, windowSecs: nat, now: int, date: Day) returns (verdict: Verdict)
      requires Valid() && clock <= now && today <= date && cutoff <= now - windowSecs
      modifies this
      ensures Valid() && log == old(log) && events == old(events) + [Rolled(date)]
      ensures cutoff == now - windowSecs && clock == now && today == date && dailyDate == date
      ensures verdict == VerdictOf(log, events, config, now - windowSecs, date)
    {
      Cleanup(windowSecs, now, date);
      verdict := Decide(config, requests, tokens, dailyTokens);
    }
  }
}
