/** Request quotas of users (src/store/mod.rs, `check_user_request_quota` and `get_user_quota_usage`). */
module UserQuota {
  import opened Wrappers
  import opened Calendar

  type Id = nat

  datatype User = User(id: Id, dailyLimit: int, monthlyLimit: int)

  datatype Quota = Quota(daily: int, monthly: int, date: Date, month: int)

  function Rolled(q: Quota, today: Date): Quota {
    Quota(if q.date != today then 0 else q.daily, if q.month != today.month then 0 else q.monthly, today, today.month)
  }

  function Entry(counts: map<Id, Quota>, id: Id, today: Date): Quota {
    Rolled(if id in counts then counts[id] else Quota(0, 0, today, today.month), today)
  }

  predicate Limited(user: User) {
    user.dailyLimit > 0 || user.monthlyLimit > 0
  }

  predicate Exceeded(user: User, q: Quota) {
    (user.dailyLimit > 0 && q.daily >= user.dailyLimit) || (user.monthlyLimit > 0 && q.monthly >= user.monthlyLimit)
  }

  /** The counters after one request, and whether it was accepted. */
  function Check(counts: map<Id, Quota>, user: User, today: Date): (map<Id, Quota>, bool) {
    if !Limited(user) then (counts, true)
    else
      var q := Entry(counts, user.id, today);
      if Exceeded(user, q) then (counts[user.id := q], false)
      else (counts[user.id := q.(daily := q.daily + 1, monthly := q.monthly + 1)], true)
  }

  function Usage(counts: map<Id, Quota>, id: Id, today: Date): (int, int) {
    if id !in counts then (0, 0)
    else
      var q := counts[id];
      (if q.date == today then q.daily else 0, if q.month == today.month then q.monthly else 0)
  }

  class QuotaStore {
    var counts: map<Id, Quota>

    constructor ()
      ensures counts == map[]
    {
      counts := map[];
    }

    method CheckUserRequestQuota(user: User, today: Date) returns (ok: bool)
      modifies this
      ensures (counts, ok) == Check(old(counts), user, today)
    {
      if user.dailyLimit <= 0 && user.monthlyLimit <= 0 {
        return true;
      }
      if user.id !in counts {
        counts := counts[user.id := Quota(0, 0, today, today.month)];
      }
      var entry := counts[user.id];
      if entry.date != today {
        entry := entry.(daily := 0, date := today);
      }
      if entry.month != today.month {
        entry := entry.(monthly := 0, month := today.month);
      }
      counts := counts[user.id := entry];
      assert entry == Entry(old(counts), user.id, today);
      assert counts == old(counts)[user.id := entry];
      if user.dailyLimit > 0 && entry.daily >= user.dailyLimit {
        return false;
      }
      if user.monthlyLimit > 0 && entry.monthly >= user.monthlyLimit {
        return false;
      }
      counts := counts[user.id := entry.(daily := entry.daily + 1, monthly := entry.monthly + 1)];
      assert counts == old(counts)[user.id := entry.(daily := entry.daily + 1, monthly := entry.monthly + 1)];
      return true;
    }

    /** The figures are the numbers of accepted requests of the current date and month, for every history
        of accepted requests that the counters record exactly. */
    method GetUserQuotaUsage(id: Id, today: Date) returns (daily: int, monthly: int)
      ensures (daily, monthly) == Usage(counts, id, today)
      ensures forall user: User, accepted: seq<Date>, latest: Date ::
                user.id == id && Exact(user, counts, accepted, latest) && latest.NotAfter(today) ==>
                daily == CountOn(accepted, today) && monthly == CountIn(accepted, today.month)
    {
      forall user: User, accepted: seq<Date>, latest: Date
        | user.id == id && Exact(user, counts, accepted, latest) && latest.NotAfter(today)
        ensures Usage(counts, id, today) == (CountOn(accepted, today), CountIn(accepted, today.month))
      {
        EntryIsExact(user, counts, accepted, latest, today);
      }
      if id !in counts {
        return 0, 0;
      }
      daily := if counts[id].date == today then counts[id].daily else 0;
      monthly := if counts[id].month == today.month then counts[id].monthly else 0;
    }
  }

  // ---------------------------------------------------------------- whole runs

  datatype Attempt = Attempt(id: Id, today: Date)

  /** Counters and verdicts after a sequence of requests; `users` fixes everyone's limits. */
  datatype Run = Run(counts: map<Id, Quota>, verdicts: seq<bool>)

  ghost predicate Users(users: map<Id, User>) {
    forall id :: id in users ==> users[id].id == id
  }

  function RunAll(users: map<Id, User>, attempts: seq<Attempt>): Run
    requires forall i :: 0 <= i < |attempts| ==> attempts[i].id in users
  {
    if attempts == [] then Run(map[], [])
    else
      var before, last := RunAll(users, attempts[..|attempts| - 1]), attempts[|attempts| - 1];
      var (counts, ok) := Check(before.counts, users[last.id], last.today);
      Run(counts, before.verdicts + [ok])
  }

  /** The dates of one user's accepted requests. */
  function Accepted(attempts: seq<Attempt>, verdicts: seq<bool>, id: Id): seq<Date>
    requires |attempts| == |verdicts|
  {
    if attempts == [] then []
    else
      var n := |attempts| - 1;
      Accepted(attempts[..n], verdicts[..n], id) + if attempts[n].id == id && verdicts[n] then [attempts[n].today]
          else []
  }

  ghost predicate Chronological(attempts: seq<Attempt>) {
    forall i, j :: 0 <= i < j < |attempts| ==> attempts[i].today.NotAfter(attempts[j].today)
  }

  /** The stored counters of a limited user are the accepted requests of their date and month. */
  ghost predicate Exact(user: User, counts: map<Id, Quota>, accepted: seq<Date>, latest: Date) {
    && (forall i :: 0 <= i < |accepted| ==> accepted[i].NotAfter(latest))
    && (user.id !in counts ==> accepted == [])
    && (user.id in counts ==>
          var q := counts[user.id];
          && q.month == q.date.month && q.date.NotAfter(latest)
          && (forall i :: 0 <= i < |accepted| ==> accepted[i].NotAfter(q.date))
          && q.daily == CountOn(accepted, q.date) && q.monthly == CountIn(accepted, q.month))
    && (user.dailyLimit > 0 ==> forall d :: CountOn(accepted, d) <= user.dailyLimit)
    && (user.monthlyLimit > 0 ==> forall m :: CountIn(accepted, m) <= user.monthlyLimit)
  }

  lemma EntryIsExact(user: User, counts: map<Id, Quota>, accepted: seq<Date>, latest: Date, today: Date)
    requires Exact(user, counts, accepted, latest) && latest.NotAfter(today)
    ensures var q := Entry(counts, user.id, today);
            q.daily == CountOn(accepted, today) && q.monthly == CountIn(accepted, today.month)
    ensures Usage(counts, user.id, today) == (CountOn(accepted, today), CountIn(accepted, today.month))
  {
    if user.id in counts {
      var q := counts[user.id];
      if q.date != today {
        assert today !in accepted;
        CountZero(accepted, today);
      }
    }
  }

  lemma CheckIsExact(user: User, counts: map<Id, Quota>, accepted: seq<Date>, latest: Date, today: Date)
    requires Limited(user) && Exact(user, counts, accepted, latest) && latest.NotAfter(today)
    ensures var (counts', ok) := Check(counts, user, today);
            && Exact(user, counts', accepted + (if ok then [today] else []), today)
            && (ok <==> !(user.dailyLimit > 0 && CountOn(accepted, today) >= user.dailyLimit)
                        && !(user.monthlyLimit > 0 && CountIn(accepted, today.month) >= user.monthlyLimit))
  {
    EntryIsExact(user, counts, accepted, latest, today);
    CountSnoc(accepted, today);
    assert accepted + [] == accepted;
  }

  lemma ExactLater(user: User, counts: map<Id, Quota>, counts': map<Id, Quota>, accepted: seq<Date>, latest: Date,
                   later: Date)
    requires Exact(user, counts, accepted, latest) && latest.NotAfter(later)
    requires user.id in counts' <==> user.id in counts
    requires user.id in counts ==> counts'[user.id] == counts[user.id]
    ensures Exact(user, counts', accepted, later)
  {
  }

  lemma RunSnoc(users: map<Id, User>, attempts: seq<Attempt>)
    requires attempts != [] && forall i :: 0 <= i < |attempts| ==> attempts[i].id in users
    ensures var n := |attempts| - 1;
            var before, run := RunAll(users, attempts[..n]), RunAll(users, attempts);
            && |before.verdicts| == n && |run.verdicts| == n + 1 && run.verdicts[..n] == before.verdicts
            && (run.counts, run.verdicts[n]) == Check(before.counts, users[attempts[n].id], attempts[n].today)
  {
    VerdictPerAttempt(users, attempts[..|attempts| - 1]);
  }

  lemma {:induction false} VerdictPerAttempt(users: map<Id, User>, attempts: seq<Attempt>)
    requires forall i :: 0 <= i < |attempts| ==> attempts[i].id in users
    ensures |RunAll(users, attempts).verdicts| == |attempts|
  {
    if attempts == [] {
    } else {
      VerdictPerAttempt(users, attempts[..|attempts| - 1]);
    }
  }

  lemma {:induction false} RunIsExact(users: map<Id, User>, attempts: seq<Attempt>, id: Id, latest: Date)
    requires Users(users) && Chronological(attempts) && id in users && Limited(users[id])
    requires forall i :: 0 <= i < |attempts| ==> attempts[i].id in users && attempts[i].today.NotAfter(latest)
    ensures var run := RunAll(users, attempts);
            && |run.verdicts| == |attempts|
            && Exact(users[id], run.counts, Accepted(attempts, run.verdicts, id), latest)
  {
    if attempts == [] {
    } else {
      var n := |attempts| - 1;
      var last := attempts[n];
      RunIsExact(users, attempts[..n], id, last.today);
      RunSnoc(users, attempts);
      var before, run := RunAll(users, attempts[..n]), RunAll(users, attempts);
      var accepted := Accepted(attempts[..n], before.verdicts, id);
      if last.id == id {
        CheckIsExact(users[id], before.counts, accepted, last.today, last.today);
        ExactLater(users[id], run.counts, run.counts, Accepted(attempts, run.verdicts, id), last.today, latest);
      } else {
        assert accepted + [] == accepted;
        ExactLater(users[id], before.counts, run.counts, accepted, last.today, latest);
      }
    }
  }

  lemma {:induction false} DayWithinMonth(dates: seq<Date>, date: Date)
    ensures CountOn(dates, date) <= CountIn(dates, date.month)
  {
    if dates == [] {
    } else {
      DayWithinMonth(dates[..|dates| - 1], date);
    }
  }

  /** Over every chronological run of requests of any number of users, a limited user's accepted requests
      never exceed the daily limit on any day nor the monthly limit in any month, the usage shown is
      exactly the number of accepted requests, and the daily figure is within the monthly one. */
  lemma QuotaHolds(users: map<Id, User>, attempts: seq<Attempt>, id: Id, today: Date)
    requires Users(users) && Chronological(attempts) && id in users && Limited(users[id])
    requires forall i :: 0 <= i < |attempts| ==> attempts[i].id in users && attempts[i].today.NotAfter(today)
    ensures var run := RunAll(users, attempts);
            && |run.verdicts| == |attempts|
            && var accepted := Accepted(attempts, run.verdicts, id);
               && (users[id].dailyLimit > 0 ==> forall d :: CountOn(accepted, d) <= users[id].dailyLimit)
               && (users[id].monthlyLimit > 0 ==> forall m :: CountIn(accepted, m) <= users[id].monthlyLimit)
               && Usage(run.counts, id, today) == (CountOn(accepted, today), CountIn(accepted, today.month))
               && (id in run.counts ==> run.counts[id].daily <= run.counts[id].monthly)
  {
    RunIsExact(users, attempts, id, today);
    var run := RunAll(users, attempts);
    var accepted := Accepted(attempts, run.verdicts, id);
    EntryIsExact(users[id], run.counts, accepted, today, today);
    if id in run.counts {
      DayWithinMonth(accepted, run.counts[id].date);
    }
  }

  /** A request is rejected exactly when the requests accepted before it already fill a positive limit
      of its day or month: rejections consume nothing. */
  lemma RejectedIffFull(users: map<Id, User>, attempts: seq<Attempt>)
    requires Users(users) && Chronological(attempts) && attempts != []
    requires forall i :: 0 <= i < |attempts| ==> attempts[i].id in users
    ensures var n := |attempts| - 1;
            var run, last := RunAll(users, attempts), attempts[n];
            && |run.verdicts| == n + 1
            && var user, accepted := users[last.id], Accepted(attempts[..n], run.verdicts[..n], last.id);
               !run.verdicts[n] <==>
                 || (user.dailyLimit > 0 && CountOn(accepted, last.today) >= user.dailyLimit)
                 || (user.monthlyLimit > 0 && CountIn(accepted, last.today.month) >= user.monthlyLimit)
  {
    var n := |attempts| - 1;
    var last := attempts[n];
    RunSnoc(users, attempts);
    if !Limited(users[last.id]) {
      return;
    }
    RunIsExact(users, attempts[..n], last.id, last.today);
    var before := RunAll(users, attempts[..n]);
    CheckIsExact(users[last.id], before.counts, Accepted(attempts[..n], before.verdicts, last.id), last.today,
        last.today);
  }
}
