/** Calendar dates. The code compares the texts "%Y-%m-%d" and "%Y-%m", so a date fixes its month. */
module Calendar {

  datatype Date = Date(month: int, day: int) {
    predicate NotAfter(later: Date) {
      month < later.month || (month == later.month && day <= later.day)
    }
  }

  function CountOn(dates: seq<Date>, date: Date): nat {
    if dates == [] then 0
    else CountOn(dates[..|dates| - 1], date) + if dates[|dates| - 1] == date then 1 else 0
  }

  function CountIn(dates: seq<Date>, month: int): nat {
    if dates == [] then 0
    else CountIn(dates[..|dates| - 1], month) + if dates[|dates| - 1].month == month then 1 else 0
  }

  lemma CountSnoc(dates: seq<Date>, date: Date)
    ensures forall d :: CountOn(dates + [date], d) == CountOn(dates, d) + if d == date then 1 else 0
    ensures forall m :: CountIn(dates + [date], m) == CountIn(dates, m) + if m == date.month then 1 else 0
  {
    assert (dates + [date])[..|dates|] == dates;
  }

  lemma {:induction false} CountZero(dates: seq<Date>, date: Date)
    requires forall i :: 0 <= i < |dates| ==> dates[i].NotAfter(date)
    ensures date !in dates ==> CountOn(dates, date) == 0
    ensures (forall i :: 0 <= i < |dates| ==> dates[i].month < date.month) ==> CountIn(dates, date.month) == 0
  {
    if dates == [] {
    } else {
      CountZero(dates[..|dates| - 1], date);
    }
  }
}
