/** Candidate selection, retries and fallbacks of one request
    (src/proxy/handlers.rs, `proxy_handler` and `anthropic_proxy_handler`). */
module Candidates {
  import opened Wrappers
  import opened RetryDelay
  import opened Text

  type Id = nat

  datatype Upstream = Upstream(id: Id, apiType: string, provider: string, status: string)

  datatype Visibility = Visibility(
    allUsers: bool, allowedUsers: set<Id>,
    retryCount: int, retry: Policy,
    failureStrategy: string, fallbackUpstream: Option<Id>, fallbackModel: Option<string>)

  datatype Entry = Entry(upstream: Upstream, model: string, visibility: Option<Visibility>)

  /** The store as one request sees it. */
  datatype Store = Store(upstreams: map<Id, Upstream>, visibility: map<(Id, string), Visibility>) {
    ghost predicate Coherent() {
      forall id :: id in upstreams ==> upstreams[id].id == id
    }

    function VisibilityOf(id: Id, model: string): Option<Visibility> {
      if (id, model) in visibility then Some(visibility[(id, model)]) else None
    }

    /** `check_model_access`: models without a visibility rule are open to everyone. */
    predicate Access(user: Id, id: Id, model: string) {
      var v := VisibilityOf(id, model);
      v.None? || v.value.allUsers || user in v.value.allowedUsers
    }
  }

  /** Which API the client speaks. */
  datatype Client = OpenAiClient | AnthropicClient

  datatype Request = Request(client: Client, user: Id, model: string)

  /** Anthropic clients need upstreams of API type "anthropic", all others need any other type. */
  predicate Serves(u: Upstream, client: Client) {
    (LowerAscii(u.apiType) == "anthropic") == client.AnthropicClient?
  }

  predicate Usable(u: Upstream, client: Client) {
    u.status == "active" && Serves(u, client)
  }

  // ---------------------------------------------------------------- the initial candidates

  /** Candidates named by the smart routes, in order; unknown or unusable upstreams are skipped. */
  function RouteCandidates(store: Store, client: Client, routes: seq<(Id, string)>): seq<Entry> {
    if routes == [] then []
    else
      var (id, model) := routes[|routes| - 1];
      RouteCandidates(store, client, routes[..|routes| - 1]) +
      if id in store.upstreams && Usable(store.upstreams[id], client)
      then [Entry(store.upstreams[id], model, store.VisibilityOf(store.upstreams[id].id, model))] else []
  }

  /** Then the tenant's other upstreams that resolve the model, in order. */
  function TenantCandidates(store: Store, client: Client, used: set<Id>, tenant: seq<Upstream>,
                            resolve: Id -> Option<string>): seq<Entry> {
    if tenant == [] then []
    else
      var u := tenant[|tenant| - 1];
      TenantCandidates(store, client, used, tenant[..|tenant| - 1], resolve) +
      if Usable(u, client) && u.id !in used && resolve(u.id).Some?
      then [Entry(u, resolve(u.id).value, store.VisibilityOf(u.id, resolve(u.id).value))] else []
  }

  function Ids(entries: seq<Entry>): set<Id> {
    set i | 0 <= i < |entries| :: entries[i].upstream.id
  }

  method BuildCandidates(store: Store, client: Client, routes: seq<(Id, string)>, tenant: seq<Upstream>,
                         resolve: Id -> Option<string>) returns (available: seq<Entry>)
    ensures var routed := RouteCandidates(store, client, routes);
            available == routed + TenantCandidates(store, client, Ids(routed), tenant, resolve)
  {
    available := [];
    var used: seq<Id> := [];
    for i := 0 to |routes|
      invariant available == RouteCandidates(store, client, routes[..i])
      invariant |used| == |available| && forall k :: 0 <= k < |used| ==> used[k] == available[k].upstream.id
    {
      assert routes[..i + 1][..i] == routes[..i];
      var (id, model) := routes[i];
      if id !in store.upstreams || store.upstreams[id].status != "active" || !Serves(store.upstreams[id], client) {
        continue;
      }
      var upstream := store.upstreams[id];
      used := used + [upstream.id];
      available := available + [Entry(upstream, model, store.VisibilityOf(upstream.id, model))];
    }
    assert routes[..|routes|] == routes;
    ghost var routed := available;
    assert forall id :: id in used <==> id in Ids(routed);
    for i := 0 to |tenant|
      invariant available == routed + TenantCandidates(store, client, Ids(routed), tenant[..i], resolve)
    {
      assert tenant[..i + 1][..i] == tenant[..i];
      var u := tenant[i];
      if u.status != "active" || u.id in used || !Serves(u, client) {
        continue;
      }
      var model := resolve(u.id);
      if model.Some? {
        available := available + [Entry(u, model.value, store.VisibilityOf(u.id, model.value))];
      }
    }
    assert tenant[..|tenant|] == tenant;
  }

  ghost predicate AllUsable(entries: seq<Entry>, client: Client) {
    forall i :: 0 <= i < |entries| ==> Usable(entries[i].upstream, client)
  }

  lemma {:induction false} RouteCandidatesAreUsable(store: Store, client: Client, routes: seq<(Id, string)>)
    ensures AllUsable(RouteCandidates(store, client, routes), client)
  {
    if routes == [] {
    } else {
      RouteCandidatesAreUsable(store, client, routes[..|routes| - 1]);
    }
  }

  lemma {:induction false} TenantCandidatesAreUsable(store: Store, client: Client, used: set<Id>, tenant: seq<Upstream>,
                                                     resolve: Id -> Option<string>)
    ensures AllUsable(TenantCandidates(store, client, used, tenant, resolve), client)
    ensures Ids(TenantCandidates(store, client, used, tenant, resolve)) !! used
  {
    if tenant == [] {
    } else {
      TenantCandidatesAreUsable(store, client, used, tenant[..|tenant| - 1], resolve);
    }
  }

  // ---------------------------------------------------------------- attempts at one upstream

  datatype AppError =
    | RateLimitExceeded(message: string)
    | Internal(message: string)
    | ServiceUnavailable(message: string)

  /** What one attempt comes to: refused by the upstream's own limiter, not buildable, failed in a way
      that is retried, or answered. */
  datatype Attempt<R> = Limited(error: AppError) | Unbuildable | Retryable(error: AppError) | Answered(response: R)

  datatype RoundEnd<R> = Succeeded(response: R) | Exhausted(lastError: Option<AppError>)

  function MaxAttempts(e: Entry): nat {
    if e.visibility.Some? && e.visibility.value.retryCount > 0 then e.visibility.value.retryCount + 1 else 1
  }

  function PolicyOf(e: Entry): Policy {
    if e.visibility.Some? then e.visibility.value.retry else Policy(0, "fixed", 0)
  }

  /** The attempts from number `attempt` on. */
  function Attempts<R>(reply: nat -> Attempt<R>, attempt: nat, max: nat, last: Option<AppError>): RoundEnd<R>
    decreases max - attempt
  {
    if attempt >= max then Exhausted(last)
    else match reply(attempt)
      case Limited(error) => Exhausted(Some(error))
      case Unbuildable => Exhausted(last)
      case Retryable(error) => Attempts(reply, attempt + 1, max, Some(error))
      case Answered(response) => Succeeded(response)
  }

  /** The attempts end in success exactly when some attempt is answered and all earlier ones were retried;
      the response is then that attempt's. */
  lemma {:induction false} SucceedsIffAnswered<R>(reply: nat -> Attempt<R>, attempt: nat, max: nat,
                                                  last: Option<AppError>)
    ensures var end := Attempts(reply, attempt, max, last);
            && (end.Succeeded? <==> exists a :: attempt <= a < max && AnsweredAt(reply, attempt, a))
            && forall a :: attempt <= a < max && AnsweredAt(reply, attempt, a) ==> end == Succeeded(reply(a).response)
    decreases max - attempt
  {
    if attempt < max {
      if reply(attempt).Retryable? {
        var next := Some(reply(attempt).error);
        SucceedsIffAnswered(reply, attempt + 1, max, next);
        forall a | attempt <= a < max
          ensures AnsweredAt(reply, attempt, a) <==> a > attempt && AnsweredAt(reply, attempt + 1, a)
        {
        }
        if Attempts(reply, attempt + 1, max, next).Succeeded? {
          var a :| attempt + 1 <= a < max && AnsweredAt(reply, attempt + 1, a);
          assert AnsweredAt(reply, attempt, a);
        }
      } else {
        forall a | attempt <= a < max ensures AnsweredAt(reply, attempt, a) <==> a == attempt && reply(a).Answered? {
        }
        assert reply(attempt).Answered? ==> AnsweredAt(reply, attempt, attempt);
      }
    }
  }

  ghost predicate AnsweredAt<R>(reply: nat -> Attempt<R>, from: nat, a: nat) {
    reply(a).Answered? && forall b: nat :: from <= b < a ==> reply(b).Retryable?
  }

  method RetryLoop<R>(e: Entry, reply: nat -> Attempt<R>, nanos: nat -> nat, last: Option<AppError>)
    returns (end: RoundEnd<R>, made: nat, waited: int)
    ensures end == Attempts(reply, 0, MaxAttempts(e), last)
    ensures made <= MaxAttempts(e) && waited == TotalWait(PolicyOf(e), made, nanos)
    ensures (forall a :: 0 <= a < MaxAttempts(e) ==> reply(a).Retryable?) ==> made == MaxAttempts(e)
  {
    var lastError := last;
    made, waited := 0, 0;
    for attempt := 0 to MaxAttempts(e)
      invariant made == attempt && waited == TotalWait(PolicyOf(e), made, nanos)
      invariant Attempts(reply, 0, MaxAttempts(e), last) == Attempts(reply, attempt, MaxAttempts(e), lastError)
    {
      if attempt > 0 {
        waited := waited + RetryDelay.RetryDelay(PolicyOf(e), attempt, nanos(attempt));
      }
      made := made + 1;
      match reply(attempt) {
        case Limited(error) =>
          return Exhausted(Some(error)), made, waited;
        case Unbuildable =>
          return Exhausted(lastError), made, waited;
        case Retryable(error) =>
          lastError := Some(error);
        case Answered(response) =>
          return Succeeded(response), made, waited;
      }
    }
    end := Exhausted(lastError);
  }
}
