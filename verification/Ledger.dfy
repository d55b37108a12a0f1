/** What finished requests write: limiter, conversation and log
    (src/proxy/handlers.rs, the ends of `handle_normal_response`, `handle_stream_response` and `proxy_handler`). */
module Ledger {
  import opened Wrappers
  import opened Json
  import opened Text
  import opened Candidates
  import opened Failover
  import SseRelay
  import Usage

  /** The writes of one finished request: tokens recorded with the key's limiter (if any), tokens added
      to the conversation, and the terminal status and total of the log entry. */
  datatype Settlement = Settlement(recorded: Option<int>, conversation: int, status: string, logged: int)

  function SettleNormal(usage: Option<Usage.Usage>): Settlement {
    if usage.None? then Settlement(None, 0, "success", 0)
    else
      var total := usage.value.totalTokens;
      Settlement(Some(total), total, "success", total)
  }

  function SettleStream(out: SseRelay.Outcome): Settlement {
    Settlement(out.recorded, out.totalTokens, out.status, out.totalTokens)
  }

  const GAVE_UP := Settlement(None, 0, "failed", 0)

  /** All three books receive the same amount. */
  predicate Balanced(s: Settlement) {
    s.recorded.GetOr(0) == s.conversation == s.logged
  }

  datatype Action =
    | Record(key: Id, tokens: int)
    | AddConversation(key: Id, request: nat, tokens: int)
    | FinishLog(key: Id, request: nat, status: string, tokens: int)

  // ---------------------------------------------------------------- one request

  datatype Reply = Normal(usage: Option<Usage.Usage>) | Streamed(run: SseRelay.Run)

  const NOTHING := Settlement(None, 0, "", 0)

  function Settle(r: Reply): Settlement {
    match r
    case Normal(usage) => SettleNormal(usage)
    case Streamed(Finished(outcome)) => SettleStream(outcome)
    case Streamed(GaveUp(_)) => NOTHING
  }

  /** A stream whose relay task gave up writes nothing. */
  predicate Silent(r: Option<Reply>) {
    r.Some? && r.value.Streamed? && r.value.run.GaveUp?
  }

  function SettlementOf(r: Option<Reply>): Settlement {
    if r.Some? then Settle(r.value) else GAVE_UP
  }

  /** The writes of a request in program order; one that gave up finishes its log entry first. */
  function Writes(key: Id, request: nat, r: Option<Reply>): seq<Action> {
    var s := SettlementOf(r);
    if Silent(r) then []
    else if r.None? then [FinishLog(key, request, s.status, s.logged), AddConversation(key, request, s.conversation)]
    else (if s.recorded.Some? then [Record(key, s.recorded.value)] else []) +
         [AddConversation(key, request, s.conversation), FinishLog(key, request, s.status, s.logged)]
  }

  method WriteReply(key: Id, request: nat, r: Reply) returns (actions: seq<Action>)
    ensures actions == Writes(key, request, Some(r))
  {
    actions := [];
    match r
    case Normal(usage) =>
      if usage.Some? {
        actions := actions + [Record(key, usage.value.totalTokens)];
        actions := actions + [AddConversation(key, request, usage.value.totalTokens)];
        actions := actions + [FinishLog(key, request, "success", usage.value.totalTokens)];
      } else {
        actions := actions + [AddConversation(key, request, 0)];
        actions := actions + [FinishLog(key, request, "success", 0)];
      }
    case Streamed(GaveUp(_)) =>
    case Streamed(Finished(outcome)) =>
      if outcome.recorded.Some? {
        actions := actions + [Record(key, outcome.recorded.value)];
      }
      actions := actions + [AddConversation(key, request, outcome.totalTokens)];
      actions := actions + [FinishLog(key, request, outcome.status, outcome.totalTokens)];
  }

  /** What a request writes, after its failover loop has ended, is decided by the result of the loop alone. */
  method HandleRequest(store: Store, req: Request, candidates: seq<Entry>, reply: nat -> nat -> Attempt<Reply>,
                       nanos: nat -> nat, key: Id, request: nat)
    returns (result: Result<Reply, AppError>, actions: seq<Action>)
    requires store.Coherent()
    ensures actions == Writes(key, request, if result.Ok? then Some(result.value) else None)
    ensures result.Err? ==>
              result.error ==
                  LastError(Entries(Walk(store, req, Initial(candidates), {})), reply).GetOr(Unavailable(req.client))
  {
    var processed;
    result, processed := RunFailover(store, req, candidates, reply, nanos);
    if result.Ok? {
      actions := WriteReply(key, request, result.value);
    } else {
      actions := [FinishLog(key, request, "failed", 0)];
      actions := actions + [AddConversation(key, request, 0)];
    }
  }

  lemma NormalBalances(usage: Option<Usage.Usage>)
    ensures Balanced(SettleNormal(usage)) && Balanced(GAVE_UP)
  {
  }

  lemma RunBalances(run: SseRelay.Run)
    requires run.Finished? ==> Balanced(SettleStream(run.outcome))
    ensures Balanced(Settle(Streamed(run)))
  {
  }

  /** A stream settles evenly because it is only called failed when it has counted no tokens. */
  lemma StreamBalances(kind: SseRelay.UpstreamKind, parse: Parser, items: seq<SseRelay.StreamItem>)
    ensures Balanced(Settle(Streamed(SseRelay.RunOf(kind, parse, items))))
  {
    var run := SseRelay.RunOf(kind, parse, items);
    if run.Finished? {
      var p, broken := FinishedRun(kind, parse, items, run);
      OutcomeBalances(kind, p, broken, run.outcome.raw);
    }
    RunBalances(run);
  }

  lemma FinishedRun(kind: SseRelay.UpstreamKind, parse: Parser, items: seq<SseRelay.StreamItem>, run: SseRelay.Run)
    returns (p: SseRelay.Progress, broken: bool)
    requires run == SseRelay.RunOf(kind, parse, items) && run.Finished?
    ensures run.outcome == SseRelay.OutcomeOf(kind, p, broken, run.outcome.raw)
  {
    p, broken := SseRelay.Collect(kind, parse, items), SseRelay.Broken(items);
  }

  lemma OutcomeBalances(kind: SseRelay.UpstreamKind, p: SseRelay.Progress, broken: bool, raw: seq<bv8>)
    ensures Balanced(SettleStream(SseRelay.OutcomeOf(kind, p, broken, raw)))
  {
  }

  // ---------------------------------------------------------------- interleaved requests

  /** How a request ends. */
  datatype Ending =
    | EndNormal(usage: Option<Usage.Usage>)
    | EndStream(kind: SseRelay.UpstreamKind, parse: Parser, items: seq<SseRelay.StreamItem>)
    | EndGaveUp

  ghost function ReplyOf(e: Ending): Option<Reply> {
    match e
    case EndNormal(usage) => Some(Normal(usage))
    case EndStream(kind, parse, items) => Some(Streamed(SseRelay.RunOf(kind, parse, items)))
    case EndGaveUp => None
  }

  datatype Finished = Finished(key: Id, ending: Ending)

  /** Writes of many requests in the order in which they happen; each is tagged with its request. */
  type Trace = seq<(nat, Action)>

  function Project(trace: Trace, request: nat): seq<Action> {
    if trace == [] then []
    else
      var last := trace[|trace| - 1];
      Project(trace[..|trace| - 1], request) + if last.0 == request then [last.1] else []
  }

  /** Any interleaving in which every request performs its own writes in program order. */
  ghost predicate Interleaves(trace: Trace, requests: seq<Finished>) {
    && (forall i :: 0 <= i < |trace| ==> trace[i].0 < |requests|)
    && (forall r ::
        0 <= r < |requests| ==> Project(trace, r) == Writes(requests[r].key, r, ReplyOf(requests[r].ending)))
  }

  function Recorded(a: Action, key: Id): int {
    if a.Record? && a.key == key then a.tokens else 0
  }

  function Conversed(a: Action, key: Id): int {
    if a.AddConversation? && a.key == key then a.tokens else 0
  }

  function Logged(a: Action, key: Id): int {
    if a.FinishLog? && a.key == key then a.tokens else 0
  }

  function Sum(actions: seq<Action>, weight: Action -> int): int {
    if actions == [] then 0 else Sum(actions[..|actions| - 1], weight) + weight(actions[|actions| - 1])
  }

  function Actions(trace: Trace): seq<Action> {
    seq(|trace|, i requires 0 <= i < |trace| => trace[i].1)
  }

  /** The sums of the first `n` requests, added up request by request. */
  function PerRequest(trace: Trace, weight: Action -> int, n: nat): int {
    if n == 0 then 0 else PerRequest(trace, weight, n - 1) + Sum(Project(trace, n - 1), weight)
  }

  lemma ProjectSnoc(trace: Trace, x: (nat, Action), weight: Action -> int, r: nat)
    ensures Sum(Project(trace + [x], r), weight) == Sum(Project(trace, r), weight) + if x.0 == r then weight(x.1) else 0
  {
    assert (trace + [x])[..|trace|] == trace;
    var before := Project(trace, r);
    if x.0 == r {
      assert (before + [x.1])[..|before|] == before;
    } else {
      assert before + [] == before;
    }
  }

  lemma {:induction false} PerRequestSnoc(trace: Trace, x: (nat, Action), weight: Action -> int, n: nat)
    ensures PerRequest(trace + [x], weight, n) == PerRequest(trace, weight, n) + if x.0 < n then weight(x.1) else 0
  {
    if n == 0 {
    } else {
      PerRequestSnoc(trace, x, weight, n - 1);
      ProjectSnoc(trace, x, weight, n - 1);
    }
  }

  lemma SumSnoc(trace: Trace, x: (nat, Action), weight: Action -> int)
    ensures Sum(Actions(trace + [x]), weight) == Sum(Actions(trace), weight) + weight(x.1)
  {
    assert Actions(trace + [x])[..|trace|] == Actions(trace);
  }

  /** Adding up in time order is adding up request by request. */
  lemma {:induction false} SumByRequest(trace: Trace, weight: Action -> int, n: nat)
    requires forall i :: 0 <= i < |trace| ==> trace[i].0 < n
    ensures Sum(Actions(trace), weight) == PerRequest(trace, weight, n)
  {
    if trace == [] {
      NothingPerRequest(weight, n);
    } else {
      var init, last := trace[..|trace| - 1], trace[|trace| - 1];
      SumByRequest(init, weight, n);
      SplitLast(trace);
      PerRequestSnoc(init, last, weight, n);
      SumSnoc(init, last, weight);
    }
  }

  lemma {:induction false} NothingPerRequest(weight: Action -> int, n: nat)
    ensures PerRequest([], weight, n) == 0
  {
    if n == 0 {
    } else {
      NothingPerRequest(weight, n - 1);
    }
  }

  // ---------------------------------------------------------------- conservation

  function RecordedBy(key: Id): Action -> int {
    a => Recorded(a, key)
  }

  function ConversedBy(key: Id): Action -> int {
    a => Conversed(a, key)
  }

  function LoggedBy(key: Id): Action -> int {
    a => Logged(a, key)
  }

  lemma EndingBalances(e: Ending)
    ensures Balanced(SettlementOf(ReplyOf(e)))
  {
    match e
    case EndNormal(usage) => NormalBalances(usage);
    case EndStream(kind, parse, items) => StreamBalances(kind, parse, items);
    case EndGaveUp =>
  }

  lemma SumOfTwo(a: Action, b: Action, weight: Action -> int)
    ensures Sum([a, b], weight) == weight(a) + weight(b)
  {
    assert [a, b][..1] == [a] && [a][..0] == [];
    assert Sum([a], weight) == weight(a);
  }

  lemma SumOfThree(a: Action, b: Action, c: Action, weight: Action -> int)
    ensures Sum([a, b, c], weight) == weight(a) + weight(b) + weight(c)
  {
    assert [a, b, c][..2] == [a, b];
    SumOfTwo(a, b, weight);
  }

  lemma SumOfWrites(key: Id, request: nat, r: Option<Reply>, weight: Action -> int)
    ensures var s := SettlementOf(r);
            Sum(Writes(key, request, r), weight) ==
            if Silent(r) then 0
            else (if s.recorded.Some? then weight(Record(key, s.recorded.value)) else 0)
                 + weight(AddConversation(key, request, s.conversation))
                 + weight(FinishLog(key, request, s.status, s.logged))
  {
    var s := SettlementOf(r);
    var add, finish := AddConversation(key, request, s.conversation), FinishLog(key, request, s.status, s.logged);
    if Silent(r) {
      assert Writes(key, request, r) == [];
    } else if r.None? {
      SumOfTwo(finish, add, weight);
    } else if s.recorded.Some? {
      assert Writes(key, request, r) == [Record(key, s.recorded.value), add, finish];
      SumOfThree(Record(key, s.recorded.value), add, finish, weight);
    } else {
      assert Writes(key, request, r) == [add, finish];
      SumOfTwo(add, finish, weight);
    }
  }

  lemma WritesBalance(key: Id, request: nat, e: Ending, of: Id)
    ensures var w, total := Writes(key, request, ReplyOf(e)), SettlementOf(ReplyOf(e)).logged;
            Sum(w, RecordedBy(of)) == Sum(w, ConversedBy(of)) == Sum(w, LoggedBy(of)) == if key == of then total else 0
  {
    EndingBalances(e);
    SumOfWrites(key, request, ReplyOf(e), RecordedBy(of));
    SumOfWrites(key, request, ReplyOf(e), ConversedBy(of));
    SumOfWrites(key, request, ReplyOf(e), LoggedBy(of));
  }

  /** The tokens and the status that a request is written down with. */
  lemma WrittenAmounts(e: Ending)
    ensures var s := SettlementOf(ReplyOf(e));
            match e
            case EndNormal(Some(usage)) => s.logged == usage.totalTokens && s.status == "success" && s.recorded.Some?
            case EndNormal(None) => s.logged == 0 && s.status == "success" && s.recorded.None?
            case EndGaveUp => s.logged == 0 && s.status == "failed" && s.recorded.None?
            case EndStream(kind, parse, items) => StreamWrites(SseRelay.RunOf(kind, parse, items), s)
  {
    match e
    case EndStream(kind, parse, items) =>
      var run := SseRelay.RunOf(kind, parse, items);
      StreamSettles(run);
    case _ =>
  }

  /** A finished stream is written down with its own figures and status, and one that was given up with none. */
  ghost predicate StreamWrites(run: SseRelay.Run, s: Settlement) {
    match run
    case Finished(out) => s.logged == out.totalTokens && s.status == out.status && s.recorded == out.recorded
    case GaveUp(_) => s.recorded.None? && s.logged == 0
  }

  lemma StreamSettles(run: SseRelay.Run)
    ensures StreamWrites(run, Settle(Streamed(run)))
  {
  }

  /** A reader of a finished log entry finds its tokens recorded and added: the entry of an answered request is
      finished last. A request that gives up has nothing to add, and finishes its entry first. */
  lemma FinishingComesLast(key: Id, request: nat, r: Option<Reply>, i: nat, j: nat)
    requires i < j < |Writes(key, request, r)|
    ensures r.Some? ==> !Writes(key, request, r)[i].FinishLog?
    ensures r.None? ==> Writes(key, request, r)[i].FinishLog? && Writes(key, request, r)[j].AddConversation?
    ensures Writes(key, request, r)[j].Record? ==> false
  {
  }

  /** What each request contributes to a key: the total in its log entry. */
  ghost function Shares(requests: seq<Finished>, key: Id): seq<int> {
    seq(|requests|, r requires 0 <= r < |requests| =>
      if requests[r].key == key then SettlementOf(ReplyOf(requests[r].ending)).logged else 0)
  }

  function Total(shares: seq<int>, n: nat): int
    requires n <= |shares|
  {
    if n == 0 then 0 else Total(shares, n - 1) + shares[n - 1]
  }

  lemma {:induction false} PerRequestIsTotal(trace: Trace, shares: seq<int>, weight: Action -> int, n: nat)
    requires n <= |shares| && forall r: nat :: r < n ==> Sum(Project(trace, r), weight) == shares[r]
    ensures PerRequest(trace, weight, n) == Total(shares, n)
  {
    if n == 0 {
    } else {
      PerRequestIsTotal(trace, shares, weight, n - 1);
    }
  }

  lemma ShareIsWritten(trace: Trace, requests: seq<Finished>, key: Id, r: nat)
    requires Interleaves(trace, requests) && r < |requests|
    ensures Sum(Project(trace, r), RecordedBy(key)) == Shares(requests, key)[r]
    ensures Sum(Project(trace, r), ConversedBy(key)) == Shares(requests, key)[r]
    ensures Sum(Project(trace, r), LoggedBy(key)) == Shares(requests, key)[r]
  {
    WritesBalance(requests[r].key, r, requests[r].ending, key);
  }

  lemma BooksAgree(trace: Trace, requests: seq<Finished>, key: Id)
    requires Interleaves(trace, requests)
    ensures var total := Total(Shares(requests, key), |requests|);
            && Sum(Actions(trace), RecordedBy(key)) == total
            && Sum(Actions(trace), ConversedBy(key)) == total
            && Sum(Actions(trace), LoggedBy(key)) == total
  {
    var shares, n := Shares(requests, key), |requests|;
    forall r: nat | r < n
      ensures Sum(Project(trace, r), RecordedBy(key)) == shares[r]
      ensures Sum(Project(trace, r), ConversedBy(key)) == shares[r]
      ensures Sum(Project(trace, r), LoggedBy(key)) == shares[r]
    {
      ShareIsWritten(trace, requests, key, r);
    }
    SumByRequest(trace, RecordedBy(key), n);
    PerRequestIsTotal(trace, shares, RecordedBy(key), n);
    SumByRequest(trace, ConversedBy(key), n);
    PerRequestIsTotal(trace, shares, ConversedBy(key), n);
    SumByRequest(trace, LoggedBy(key), n);
    PerRequestIsTotal(trace, shares, LoggedBy(key), n);
  }

  function Finishes(actions: seq<Action>): seq<Action> {
    if actions == [] then []
    else
      var last := actions[|actions| - 1];
      Finishes(actions[..|actions| - 1]) + if last.FinishLog? then [last] else []
  }

  lemma {:induction false} FinishesSnoc(actions: seq<Action>, a: Action)
    ensures Finishes(actions + [a]) == Finishes(actions) + if a.FinishLog? then [a] else []
  {
    assert (actions + [a])[..|actions|] == actions;
  }

  lemma OneFinish(key: Id, request: nat, r: Option<Reply>)
    ensures Finishes(Writes(key, request, r)) ==
            if Silent(r) then [] else [FinishLog(key, request, SettlementOf(r).status, SettlementOf(r).logged)]
  {
    var s := SettlementOf(r);
    var add, finish := AddConversation(key, request, s.conversation), FinishLog(key, request, s.status, s.logged);
    if Silent(r) {
    } else if r.None? {
      assert Writes(key, request, r) == [finish] + [add];
      FinishIsFound([], finish, [add]);
    } else if s.recorded.Some? {
      assert Writes(key, request, r) == [Record(key, s.recorded.value), add] + [finish] + [];
      FinishIsFound([Record(key, s.recorded.value), add], finish, []);
    } else {
      assert Writes(key, request, r) == [add] + [finish] + [];
      FinishIsFound([add], finish, []);
    }
  }

  lemma {:induction false} NoFinish(actions: seq<Action>)
    requires forall i :: 0 <= i < |actions| ==> !actions[i].FinishLog?
    ensures Finishes(actions) == []
  {
    if actions == [] {
    } else {
      NoFinish(actions[..|actions| - 1]);
    }
  }

  lemma {:induction false} FinishIsFound(before: seq<Action>, finish: Action, after: seq<Action>)
    requires finish.FinishLog?
    requires forall i :: 0 <= i < |before| ==> !before[i].FinishLog?
    requires forall i :: 0 <= i < |after| ==> !after[i].FinishLog?
    ensures Finishes(before + [finish] + after) == [finish]
  {
    if after == [] {
      NoFinish(before);
      FinishesSnoc(before, finish);
      assert before + [finish] + after == before + [finish];
    } else {
      var init, last := after[..|after| - 1], after[|after| - 1];
      FinishIsFound(before, finish, init);
      FinishesSnoc(before + [finish] + init, last);
      assert before + [finish] + after == before + [finish] + init + [last];
    }
  }

  /** Conservation: over every interleaving of finished requests, the tokens recorded with a key's
      limiter, the tokens added to its conversations and the totals of its log entries are equal, and
      every request's log entry gets exactly one terminal status, unless its relay task gave up: then none. */
  lemma TokensAreConserved(trace: Trace, requests: seq<Finished>, key: Id)
    requires Interleaves(trace, requests)
    ensures var total := Total(Shares(requests, key), |requests|);
            && Sum(Actions(trace), RecordedBy(key)) == total
            && Sum(Actions(trace), ConversedBy(key)) == total
            && Sum(Actions(trace), LoggedBy(key)) == total
    ensures forall r :: 0 <= r < |requests| ==>
              var reply := ReplyOf(requests[r].ending);
              var s := SettlementOf(reply);
              Finishes(Project(trace, r)) ==
              if Silent(reply) then [] else [FinishLog(requests[r].key, r, s.status, s.logged)]
  {
    BooksAgree(trace, requests, key);
    forall r | 0 <= r < |requests|
      ensures var reply := ReplyOf(requests[r].ending);
              var s := SettlementOf(reply);
              Finishes(Project(trace, r)) ==
              if Silent(reply) then [] else [FinishLog(requests[r].key, r, s.status, s.logged)]
    {
      OneFinish(requests[r].key, r, ReplyOf(requests[r].ending));
    }
  }
}
