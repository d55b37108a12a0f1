/** How far interleaved requests of one key can go over its limits
    (src/proxy/rate_limiter.rs, `RateLimiter`; src/proxy/handlers.rs, where it is asked and told). */
module KeyOvershoot {
  import opened Wrappers
  import opened Text
  import opened RateLimiter

  // ---------------------------------------------------------------- interleaved requests

  datatype Setup = Setup(config: Config, windowSecs: nat, capacity: nat)

  /** One key at work: the plain log and day history its window stands for, the requests that were admitted
      but are not finished, and the latest times seen; `rolled` is the day of the last check. */
  datatype State = State(
    log: seq<Usage>, events: seq<DayEvent>, inFlight: nat, clock: int, today: Day, rolled: Day)

  /** A request asks for admission, completes with its usage, or fails without any. */
  datatype Step = Ask(now: int, date: Day) | Complete(u: Usage, date: Day) | Fail

  /** Steps that cannot happen leave the state alone: a clock that would go back, nothing in flight to
      finish, or an admission beyond the capacity. */
  function Perform(k: Setup, s: State, step: Step): State {
    match step
    case Ask(now, date) =>
      if s.inFlight >= k.capacity || now < s.clock || date < s.today then s
      else
        var events := s.events + [Rolled(date)];
        var admitted := VerdictOf(s.log, events, k.config, now - k.windowSecs, date).Admitted?;
        State(s.log, events, if admitted then s.inFlight + 1 else s.inFlight, now, date, date)
    case Complete(u, date) =>
      if s.inFlight == 0 || !(s.clock <= u.requestAt <= u.tokensAt) || date < s.today then s
      else State(s.log + [u], s.events + [Recorded(date, u.tokens)], s.inFlight - 1, u.tokensAt, date, s.rolled)
    case Fail => if s.inFlight == 0 then s else s.(inFlight := s.inFlight - 1)
  }

  function Run(k: Setup, s: State, steps: seq<Step>): State {
    if steps == [] then s else Perform(k, Run(k, s, steps[..|steps| - 1]), steps[|steps| - 1])
  }

  function Start(now: int, date: Day): State {
    State([], [Rolled(date)], 0, now, date, date)
  }

  /** No request counts more than `most` tokens. */
  ghost predicate Modest(step: Step, most: nat) {
    step.Complete? ==> 0 <= step.u.tokens <= most
  }

  // ---------------------------------------------------------------- windows of the past

  /** Requests, and tokens, recorded between two moments. */
  function RequestsWithin(log: seq<Usage>, from: int, to: int): nat {
    if log == [] then 0
    else
      var last := log[|log| - 1];
      RequestsWithin(log[..|log| - 1], from, to) + if from <= last.requestAt <= to then 1 else 0
  }

  function TokensWithin(log: seq<Usage>, from: int, to: int): int {
    if log == [] then 0
    else
      var last := log[|log| - 1];
      TokensWithin(log[..|log| - 1], from, to) + if from <= last.tokensAt <= to then last.tokens else 0
  }

  ghost predicate LogFits(log: seq<Usage>, clock: int, most: nat) {
    forall i :: 0 <= i < |log| ==>
      log[i].requestAt <= clock && log[i].tokensAt <= clock && 0 <= log[i].tokens <= most
  }

  lemma WindowOfSnoc(log: seq<Usage>, u: Usage, cutoff: int)
    ensures WindowRequests(log + [u], cutoff) == WindowRequests(log, cutoff) + if u.requestAt >= cutoff then 1 else 0
    ensures WindowTokens(log + [u], cutoff) == WindowTokens(log, cutoff) + if u.tokensAt >= cutoff then u.tokens else 0
  {
    assert RequestTimes(log + [u]) == RequestTimes(log) + [u.requestAt];
    assert TokenTimes(log + [u]) == TokenTimes(log) + [(u.tokensAt, u.tokens)];
    SinceSnoc(Moment, RequestTimes(log), u.requestAt, cutoff);
    SinceSnoc(TokenMoment, TokenTimes(log), (u.tokensAt, u.tokens), cutoff);
    SumOfKept(Since(TokenMoment, TokenTimes(log), cutoff), (u.tokensAt, u.tokens), cutoff);
  }

  lemma SumOfKept(tokens: seq<(int, int)>, x: (int, int), cutoff: int)
    ensures Sum(tokens + Keep(TokenMoment, x, cutoff)) == Sum(tokens) + if x.0 >= cutoff then x.1 else 0
  {
    if x.0 >= cutoff {
      assert (tokens + [x])[..|tokens|] == tokens;
    } else {
      assert tokens + [] == tokens;
    }
  }

  lemma EmptyWindow(cutoff: int)
    ensures WindowRequests([], cutoff) == 0 && WindowTokens([], cutoff) == 0
  {
  }

  /** A later window holds no more, and no window of the past holds more than the one from its start on. */
  lemma {:induction false} WindowShrinks(log: seq<Usage>, early: int, late: int, to: int, clock: int, most: nat)
    requires LogFits(log, clock, most) && early <= late
    ensures WindowRequests(log, late) <= WindowRequests(log, early)
    ensures 0 <= WindowTokens(log, late) <= WindowTokens(log, early)
    ensures RequestsWithin(log, late, to) <= WindowRequests(log, late)
    ensures 0 <= TokensWithin(log, late, to) <= WindowTokens(log, late)
  {
    if log == [] {
      EmptyWindow(early);
      EmptyWindow(late);
    } else {
      var init, last := log[..|log| - 1], log[|log| - 1];
      SplitLast(log);
      WindowShrinks(init, early, late, to, clock, most);
      WindowOfSnoc(init, last, early);
      WindowOfSnoc(init, last, late);
    }
  }

  lemma {:induction false} WindowIsWithin(log: seq<Usage>, cutoff: int, now: int)
    requires forall i :: 0 <= i < |log| ==> log[i].requestAt <= now && log[i].tokensAt <= now
    ensures WindowRequests(log, cutoff) == RequestsWithin(log, cutoff, now)
    ensures WindowTokens(log, cutoff) == TokensWithin(log, cutoff, now)
  {
    if log == [] {
      EmptyWindow(cutoff);
    } else {
      SplitLast(log);
      WindowIsWithin(log[..|log| - 1], cutoff, now);
      WindowOfSnoc(log[..|log| - 1], log[|log| - 1], cutoff);
    }
  }

  /** The verdict of a check: a request is refused exactly when the requests of the window, its tokens, or the
      tokens of the day since the day's first check have reached a positive limit; the first of these decides. */
  lemma VerdictIsExact(log: seq<Usage>, events: seq<DayEvent>, c: Config, windowSecs: nat, now: int, date: Day)
    requires forall i :: 0 <= i < |log| ==> log[i].requestAt <= now && log[i].tokensAt <= now
    ensures var verdict := VerdictOf(log, events, c, now - windowSecs, date);
            var requests := AsI32(RequestsWithin(log, now - windowSecs, now));
            var tokens, daily := TokensWithin(log, now - windowSecs, now), SinceRoll(events, date);
            && (verdict == Admitted <==> (c.rpmLimit > 0 ==> requests < c.rpmLimit)
                                         && (c.tpmLimit > 0 ==> tokens < c.tpmLimit)
                                         && (c.dailyLimit > 0 ==> daily < c.dailyLimit))
            && (verdict == RpmExceeded <==> 0 < c.rpmLimit <= requests)
            && (verdict == TpmExceeded <==> !(0 < c.rpmLimit <= requests) && 0 < c.tpmLimit <= tokens)
            && (verdict == DailyExceeded <==>
                  !(0 < c.rpmLimit <= requests) && !(0 < c.tpmLimit <= tokens) && 0 < c.dailyLimit <= daily)
  {
    WindowIsWithin(log, now - windowSecs, now);
  }

  // ---------------------------------------------------------------- the bound

  /** What `n` requests of at most `most` tokens can count for: n times `most`. */
  function Load(most: nat, n: nat): nat {
    if n == 0 then 0 else Load(most, n - 1) + most
  }

  lemma {:induction false} LoadIsProduct(most: nat, n: nat)
    ensures Load(most, n) == n * most
  {
    if n == 0 {
    } else {
      LoadIsProduct(most, n - 1);
    }
  }

  ghost predicate Within(limit: int, counted: int, waiting: int, slack: int) {
    limit > 0 ==> counted + waiting <= limit - 1 + slack
  }

  /** No window of the past holds more than the limits and the overshoot allow. */
  ghost predicate PastFits(k: Setup, s: State, most: nat) {
    forall t :: RequestsFit(k, s, t) && TokensFit(k, s, t, most)
  }

  /** A wrap of the 32-bit request count is out of reach. */
  ghost predicate NoWrap(k: Setup) {
    k.config.rpmLimit - 1 + k.capacity < 0x8000_0000
  }

  ghost predicate RequestsFit(k: Setup, s: State, t: int) {
    NoWrap(k) ==> Within(k.config.rpmLimit, RequestsWithin(s.log, t - k.windowSecs, t), 0, k.capacity)
  }

  ghost predicate TokensFit(k: Setup, s: State, t: int, most: nat) {
    Within(k.config.tpmLimit, TokensWithin(s.log, t - k.windowSecs, t), 0, Load(most, k.capacity))
  }

  /** Requests, tokens and tokens of the day, with `n` requests in flight, stay within the limits and the
      overshoot. */
  ghost predicate Fits(k: Setup, most: nat, n: nat, requests: int, tokens: int, daily: int) {
    && n <= k.capacity
    && (NoWrap(k) ==> Within(k.config.rpmLimit, requests, n, k.capacity))
    && Within(k.config.tpmLimit, tokens, Load(most, n), Load(most, k.capacity))
    && Within(k.config.dailyLimit, daily, Load(most, n), Load(most, k.capacity))
  }

  /** The three counts of a state. */
  function Requests(k: Setup, s: State): nat {
    WindowRequests(s.log, s.clock - k.windowSecs)
  }

  function Tokens(k: Setup, s: State): int {
    WindowTokens(s.log, s.clock - k.windowSecs)
  }

  function Daily(s: State): int {
    SinceRoll(s.events, s.rolled)
  }

  ghost predicate CountsFit(k: Setup, s: State, most: nat) {
    Fits(k, most, s.inFlight, Requests(k, s), Tokens(k, s), Daily(s))
  }

  ghost predicate RollsFit(s: State) {
    && s.rolled <= s.today && Rolled(s.rolled) in s.events
    && forall d :: Rolled(d) in s.events ==> d <= s.rolled
  }

  ghost predicate Bounded(k: Setup, s: State, most: nat) {
    LogFits(s.log, s.clock, most) && RollsFit(s) && CountsFit(k, s, most) && PastFits(k, s, most)
  }

  lemma {:induction false} Loads(most: nat, n: nat, m: nat)
    requires n <= m
    ensures Load(most, n) <= Load(most, m) && Load(most, n + 1) == Load(most, n) + most
  {
    if n == m {
    } else {
      Loads(most, n, m - 1);
    }
  }

  lemma EventsOfSnoc(events: seq<DayEvent>, e: DayEvent, day: Day)
    ensures SinceRoll(events + [e], day) ==
            SinceRoll(events, day) + if e.Recorded? && Rolled(day) in events then e.tokens else 0
    ensures forall d :: Rolled(d) in events + [e] <==> Rolled(d) in events || e == Rolled(d)
  {
    assert (events + [e])[..|events|] == events;
  }

  lemma AskKeepsRolls(s: State, now: int, date: Day)
    requires RollsFit(s) && s.today <= date
    ensures RollsFit(s.(events := s.events + [Rolled(date)], today := date, rolled := date))
    ensures SinceRoll(s.events + [Rolled(date)], date) == if date == s.rolled then SinceRoll(s.events, s.rolled) else 0
  {
    EventsOfSnoc(s.events, Rolled(date), date);
    if date != s.rolled {
      NoRollNoCount(s.events, date);
    }
  }

  lemma AskFits(k: Setup, most: nat, n: nat, r: int, t: int, d: int, r': nat, t': int, d': int)
    requires Fits(k, most, n, r, t, d) && n < k.capacity && r' <= r && t' <= t && (d' == d || d' == 0)
    ensures Fits(k, most, n, r', t', d')
    ensures Limits(k.config, r', t', d').Admitted? ==> Fits(k, most, n + 1, r', t', d')
  {
    Loads(most, n, k.capacity);
    Loads(most, n + 1, k.capacity);
  }

  lemma CompleteFits(k: Setup, most: nat, n: nat, r: int, t: int, d: int, r': int, t': int, d': int)
    requires Fits(k, most, n, r, t, d) && n > 0 && r' <= r + 1 && t' <= t + most && d' <= d + most
    ensures Fits(k, most, n - 1, r', t', d')
  {
    Loads(most, n - 1, k.capacity);
  }

  lemma AskWindow(k: Setup, s: State, most: nat, s': State)
    requires LogFits(s.log, s.clock, most) && s.clock <= s'.clock && s'.log == s.log
    ensures Requests(k, s') <= Requests(k, s) && Tokens(k, s') <= Tokens(k, s)
  {
    WindowShrinks(s.log, s.clock - k.windowSecs, s'.clock - k.windowSecs, s'.clock, s.clock, most);
  }

  lemma AskIsBounded(k: Setup, s: State, most: nat, now: int, date: Day)
    requires Bounded(k, s, most)
    ensures Bounded(k, Perform(k, s, Ask(now, date)), most)
  {
    var s' := Perform(k, s, Ask(now, date));
    if s' != s {
      AskWindow(k, s, most, s');
      AskKeepsRolls(s, now, date);
      AskFits(k, most, s.inFlight, Requests(k, s), Tokens(k, s), Daily(s), Requests(k, s'), Tokens(k, s'), Daily(s'));
      AskKeepsLog(s, s', most);
      AskKeepsPast(k, s, s', most);
    }
  }

  lemma AskKeepsLog(s: State, s': State, most: nat)
    requires LogFits(s.log, s.clock, most) && s'.log == s.log && s.clock <= s'.clock
    ensures LogFits(s'.log, s'.clock, most)
  {
  }

  lemma AskKeepsPast(k: Setup, s: State, s': State, most: nat)
    requires PastFits(k, s, most) && s'.log == s.log
    ensures PastFits(k, s', most)
  {
    forall t ensures RequestsFit(k, s', t) && TokensFit(k, s', t, most) {
      assert RequestsFit(k, s, t) && TokensFit(k, s, t, most);
    }
  }

  lemma WindowGrows(log: seq<Usage>, u: Usage, early: int, late: int, clock: int, most: nat)
    requires LogFits(log, clock, most) && 0 <= u.tokens <= most && early <= late
    ensures WindowRequests(log + [u], late) <= WindowRequests(log, early) + 1
    ensures WindowTokens(log + [u], late) <= WindowTokens(log, early) + most
  {
    WindowShrinks(log, early, late, late, clock, most);
    WindowOfSnoc(log, u, late);
  }

  lemma CompleteWindow(k: Setup, s: State, most: nat, u: Usage, s': State)
    requires LogFits(s.log, s.clock, most)
    requires 0 <= u.tokens <= most && s.clock <= u.tokensAt
    requires s'.log == s.log + [u] && s'.clock == u.tokensAt
    ensures Requests(k, s') <= Requests(k, s) + 1 && Tokens(k, s') <= Tokens(k, s) + most
  {
    WindowGrows(s.log, u, s.clock - k.windowSecs, u.tokensAt - k.windowSecs, s.clock, most);
  }

  lemma CompleteDaily(s: State, most: nat, u: Usage, date: Day, s': State)
    requires 0 <= u.tokens <= most
    requires s'.events == s.events + [Recorded(date, u.tokens)] && s'.rolled == s.rolled
    ensures Daily(s') <= Daily(s) + most
  {
    EventsOfSnoc(s.events, Recorded(date, u.tokens), s.rolled);
  }

  lemma CompleteKeepsLog(s: State, most: nat, u: Usage, date: Day, s': State)
    requires LogFits(s.log, s.clock, most) && RollsFit(s) && s.today <= date
    requires 0 <= u.tokens <= most && s.clock <= u.requestAt <= u.tokensAt
    requires s' == State(s.log + [u], s.events + [Recorded(date, u.tokens)], s'.inFlight, u.tokensAt, date, s.rolled)
    ensures LogFits(s'.log, s'.clock, most) && RollsFit(s')
  {
    EventsOfSnoc(s.events, Recorded(date, u.tokens), s.rolled);
  }

  lemma CompleteIsBounded(k: Setup, s: State, most: nat, u: Usage, date: Day)
    requires Bounded(k, s, most) && 0 <= u.tokens <= most
    ensures Bounded(k, Perform(k, s, Complete(u, date)), most)
  {
    var s' := Perform(k, s, Complete(u, date));
    if s' != s {
      CompleteKeepsLog(s, most, u, date, s');
      CompleteWindow(k, s, most, u, s');
      CompleteDaily(s, most, u, date, s');
      CompleteFits(k, most, s.inFlight, Requests(k, s), Tokens(k, s), Daily(s), Requests(k, s'), Tokens(k, s'),
                   Daily(s'));
      CompleteKeepsPast(k, s, u, most, s');
    }
  }

  lemma WithinOfSnoc(log: seq<Usage>, u: Usage, from: int, to: int)
    ensures RequestsWithin(log + [u], from, to) ==
            RequestsWithin(log, from, to) + if from <= u.requestAt <= to then 1 else 0
    ensures TokensWithin(log + [u], from, to) ==
            TokensWithin(log, from, to) + if from <= u.tokensAt <= to then u.tokens else 0
  {
    assert (log + [u])[..|log|] == log;
  }

  lemma OneMoreFits(k: Setup, most: nat, n: nat, r: int, t: int, d: int, r': int, t': int)
    requires Fits(k, most, n, r, t, d) && n > 0 && r' <= r && t' <= t
    ensures NoWrap(k) ==> Within(k.config.rpmLimit, r' + 1, 0, k.capacity)
    ensures Within(k.config.tpmLimit, t' + most, 0, Load(most, k.capacity))
  {
    Loads(most, n - 1, k.capacity);
    Loads(most, 0, n - 1);
  }

  lemma LaterWindow(k: Setup, s: State, most: nat, t: int)
    requires LogFits(s.log, s.clock, most) && s.clock <= t
    ensures RequestsWithin(s.log, t - k.windowSecs, t) <= Requests(k, s)
    ensures TokensWithin(s.log, t - k.windowSecs, t) <= Tokens(k, s)
  {
    WindowShrinks(s.log, s.clock - k.windowSecs, t - k.windowSecs, t, s.clock, most);
  }

  /** A window that the new request falls into holds no more than what the limiter counts now. */
  lemma CompleteKeepsWindow(k: Setup, s: State, u: Usage, most: nat, s': State, t: int)
    requires LogFits(s.log, s.clock, most) && CountsFit(k, s, most)
    requires RequestsFit(k, s, t) && TokensFit(k, s, t, most)
    requires 0 <= u.tokens <= most && s.inFlight > 0 && s.clock <= u.requestAt <= u.tokensAt
    requires s'.log == s.log + [u]
    ensures RequestsFit(k, s', t) && TokensFit(k, s', t, most)
  {
    var from := t - k.windowSecs;
    WithinOfSnoc(s.log, u, from, t);
    if s.clock <= t {
      LaterWindow(k, s, most, t);
      OneMoreFits(k, most, s.inFlight, Requests(k, s), Tokens(k, s), Daily(s),
                  RequestsWithin(s.log, from, t), TokensWithin(s.log, from, t));
    }
  }

  lemma CompleteKeepsPast(k: Setup, s: State, u: Usage, most: nat, s': State)
    requires Bounded(k, s, most) && 0 <= u.tokens <= most && s.inFlight > 0 && s.clock <= u.requestAt <= u.tokensAt
    requires s'.log == s.log + [u]
    ensures PastFits(k, s', most)
  {
    forall t ensures RequestsFit(k, s', t) && TokensFit(k, s', t, most) {
      CompleteKeepsWindow(k, s, u, most, s', t);
    }
  }

  /** Overshoot bound of a key: whatever the interleaving of admissions, completions and failures, with at
      most `capacity` requests in flight and at most `most` tokens each, no window of the past holds more
      than `capacity - 1` requests over the limit, or more than `capacity` times `most` tokens less one; nor
      does the daily counter. */
  lemma {:induction false} KeyOvershootIsBounded(k: Setup, most: nat, now: int, date: Day, steps: seq<Step>)
    requires forall i :: 0 <= i < |steps| ==> Modest(steps[i], most)
    ensures Bounded(k, Run(k, Start(now, date), steps), most)
  {
    if steps == [] {
      StartIsBounded(k, most, now, date);
    } else {
      var init, last := steps[..|steps| - 1], steps[|steps| - 1];
      KeyOvershootIsBounded(k, most, now, date, init);
      var s := Run(k, Start(now, date), init);
      match last
      case Ask(now', date') => AskIsBounded(k, s, most, now', date');
      case Complete(u, date') => CompleteIsBounded(k, s, most, u, date');
      case Fail => FailIsBounded(k, s, most);
    }
  }

  lemma FailIsBounded(k: Setup, s: State, most: nat)
    requires Bounded(k, s, most)
    ensures Bounded(k, Perform(k, s, Fail), most)
  {
    var s' := Perform(k, s, Fail);
    if s' != s {
      CompleteFits(k, most, s.inFlight, Requests(k, s), Tokens(k, s), Daily(s), Requests(k, s), Tokens(k, s), Daily(s));
      AskKeepsPast(k, s, s', most);
    }
  }

  lemma StartIsBounded(k: Setup, most: nat, now: int, date: Day)
    ensures Bounded(k, Start(now, date), most)
  {
    EmptyWindow(now - k.windowSecs);
    assert [] + [Rolled(date)] == [Rolled(date)];
    EventsOfSnoc([], Rolled(date), date);
    Loads(most, 0, k.capacity);
    var s := Start(now, date);
    assert Requests(k, s) == 0 && Tokens(k, s) == 0 && Daily(s) == 0;
    forall t ensures RequestsFit(k, s, t) && TokensFit(k, s, t, most) {
    }
  }

  // ---------------------------------------------------------------- the bound is attained

  /** `n` requests without tokens are recorded, and others in flight, all at one moment. */
  ghost predicate Still(s: State, n: nat, inFlight: nat, now: int, date: Day) {
    && s.inFlight == inFlight && s.clock == now && s.today == date
    && |s.log| == n && (forall i :: 0 <= i < n ==> s.log[i] == Usage(now, now, 0))
    && forall i :: 0 <= i < |s.events| ==> s.events[i].Recorded? ==> s.events[i].tokens == 0
  }

  lemma {:induction false} StillWindow(log: seq<Usage>, now: int, cutoff: int)
    requires cutoff <= now && forall i :: 0 <= i < |log| ==> log[i] == Usage(now, now, 0)
    ensures WindowRequests(log, cutoff) == |log| == RequestsWithin(log, cutoff, now) && WindowTokens(log, cutoff) == 0
  {
    if log == [] {
      EmptyWindow(cutoff);
    } else {
      var init, last := log[..|log| - 1], log[|log| - 1];
      SplitLast(log);
      StillWindow(init, now, cutoff);
      WindowOfSnoc(init, last, cutoff);
    }
  }

  lemma {:induction false} NoTokensNoCount(events: seq<DayEvent>, day: Day)
    requires forall i :: 0 <= i < |events| ==> events[i].Recorded? ==> events[i].tokens == 0
    ensures SinceRoll(events, day) == 0
  {
    if events == [] {
    } else {
      NoTokensNoCount(events[..|events| - 1], day);
    }
  }

  lemma StillAsk(k: Setup, s: State, n: nat, inFlight: nat, now: int, date: Day)
    requires Still(s, n, inFlight, now, date) && n < k.config.rpmLimit < 0x8000_0000 && inFlight < k.capacity
    ensures Still(Perform(k, s, Ask(now, date)), n, inFlight + 1, now, date)
  {
    StillWindow(s.log, now, now - k.windowSecs);
    NoTokensNoCount(s.events + [Rolled(date)], date);
  }

  lemma {:induction false} StillAsks(k: Setup, s: State, n: nat, now: int, date: Day, count: nat)
    returns (steps: seq<Step>)
    requires Still(s, n, 0, now, date) && n < k.config.rpmLimit < 0x8000_0000 && count <= k.capacity
    ensures Still(Run(k, s, steps), n, count, now, date)
  {
    if count == 0 {
      steps := [];
    } else {
      var before := StillAsks(k, s, n, now, date, count - 1);
      steps := before + [Ask(now, date)];
      assert steps[..|before|] == before;
      StillAsk(k, Run(k, s, before), n, count - 1, now, date);
    }
  }

  lemma {:induction false} StillCompletes(k: Setup, s: State, n: nat, inFlight: nat, now: int, date: Day, count: nat)
    returns (steps: seq<Step>)
    requires Still(s, n, inFlight, now, date) && count <= inFlight
    ensures Still(Run(k, s, steps), n + count, inFlight - count, now, date)
  {
    if count == 0 {
      steps := [];
    } else {
      var before := StillCompletes(k, s, n, inFlight, now, date, count - 1);
      steps := before + [Complete(Usage(now, now, 0), date)];
      assert steps[..|before|] == before;
    }
  }

  lemma {:induction false} RunConcat(k: Setup, s: State, a: seq<Step>, b: seq<Step>)
    ensures Run(k, s, a + b) == Run(k, Run(k, s, a), b)
  {
    if b == [] {
      assert a + b == a;
    } else {
      assert (a + b)[..|a + b| - 1] == a + b[..|b| - 1];
      RunConcat(k, s, a, b[..|b| - 1]);
    }
  }

  /** A burst of requests on top of the recorded ones. */
  lemma StillBurst(k: Setup, s: State, n: nat, now: int, date: Day, count: nat) returns (steps: seq<Step>)
    requires Still(s, n, 0, now, date) && n < k.config.rpmLimit < 0x8000_0000 && count <= k.capacity
    ensures Still(Run(k, s, steps), n + count, 0, now, date)
  {
    var asks := StillAsks(k, s, n, now, date, count);
    var completes := StillCompletes(k, Run(k, s, asks), n, count, now, date, count);
    RunConcat(k, s, asks, completes);
    steps := asks + completes;
  }

  lemma {:induction false} StillFill(k: Setup, s: State, now: int, date: Day, n: nat) returns (steps: seq<Step>)
    requires Still(s, 0, 0, now, date) && n < k.config.rpmLimit < 0x8000_0000 && k.capacity > 0
    ensures Still(Run(k, s, steps), n, 0, now, date)
  {
    if n == 0 {
      steps := [];
    } else {
      var before := StillFill(k, s, now, date, n - 1);
      var one := StillBurst(k, Run(k, s, before), n - 1, now, date, 1);
      RunConcat(k, s, before, one);
      steps := before + one;
    }
  }

  lemma StillRequests(k: Setup, s: State, n: nat, now: int, date: Day)
    requires Still(s, n, 0, now, date)
    ensures RequestsWithin(s.log, now - k.windowSecs, now) == n
  {
    StillWindow(s.log, now, now - k.windowSecs);
  }

  /** For every request limit and every capacity, whatever the other limits, some run records exactly as many
      requests in one window as the bound allows. */
  lemma KeyOvershootIsAttained(k: Setup, now: int, date: Day) returns (steps: seq<Step>)
    requires 0 < k.config.rpmLimit < 0x8000_0000 && k.capacity > 0
    ensures var s := Run(k, Start(now, date), steps);
            && RequestsWithin(s.log, now - k.windowSecs, now) == k.config.rpmLimit - 1 + k.capacity
            && s.inFlight == 0
  {
    var fill := StillFill(k, Start(now, date), now, date, k.config.rpmLimit - 1);
    var s := Run(k, Start(now, date), fill);
    var burst := StillBurst(k, s, k.config.rpmLimit - 1, now, date, k.capacity);
    RunConcat(k, Start(now, date), fill, burst);
    steps := fill + burst;
    StillRequests(k, Run(k, Start(now, date), steps), k.config.rpmLimit - 1 + k.capacity, now, date);
  }
}
