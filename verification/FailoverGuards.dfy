/** Who may be routed where: the guards in front of candidates and fallbacks, said over the stored rows
    (src/proxy/handlers.rs, `proxy_handler` and `anthropic_proxy_handler`). */
module FailoverGuards {
  import opened Wrappers
  import opened Text
  import opened Candidates
  import opened Failover

  // ---------------------------------------------------------------- the guards, over the stored rows

  /** The model has no visibility row, or one that is open to all users or lists the user. */
  ghost predicate MayUse(store: Store, user: Id, id: Id, model: string) {
    (id, model) in store.visibility ==>
      store.visibility[(id, model)].allUsers || user in store.visibility[(id, model)].allowedUsers
  }

  /** The upstream is stored and active, and of API type "anthropic" exactly for Anthropic clients. */
  ghost predicate Serving(store: Store, client: Client, id: Id) {
    && id in store.upstreams && store.upstreams[id].status == "active"
    && (SameLetters(store.upstreams[id].apiType, "anthropic") <==> client == AnthropicClient)
  }

  /** Equal up to the case of ASCII letters; `lower` is in lower case. */
  ghost predicate SameLetters(s: string, lower: string) {
    |s| == |lower| && forall i :: 0 <= i < |s| ==>
      s[i] == lower[i] || ('A' <= s[i] <= 'Z' && s[i] as int + 32 == lower[i] as int)
  }

  /** The entry carries what is stored for its upstream and model. */
  ghost predicate Stored(store: Store, e: Entry) {
    && e.upstream.id in store.upstreams && e.upstream == store.upstreams[e.upstream.id]
    && (var key := (e.upstream.id, e.model);
        e.visibility == if key in store.visibility then Some(store.visibility[key]) else None)
  }

  lemma LowerIff(s: string, lower: string)
    requires forall i :: 0 <= i < |lower| ==> 'a' <= lower[i] <= 'z'
    ensures LowerAscii(s) == lower <==> SameLetters(s, lower)
  {
    var t := LowerAscii(s);
    if SameLetters(s, lower) {
      forall i | 0 <= i < |s| ensures t[i] == lower[i] {
      }
    } else if t == lower {
      forall i | 0 <= i < |s| ensures s[i] == lower[i] || ('A' <= s[i] <= 'Z' && s[i] as int + 32 == lower[i] as int) {
        assert t[i] == lower[i];
      }
    }
  }

  lemma UsableIff(store: Store, client: Client, id: Id)
    requires id in store.upstreams
    ensures Usable(store.upstreams[id], client) <==> Serving(store, client, id)
  {
    LowerIff(store.upstreams[id].apiType, "anthropic");
  }

  // ---------------------------------------------------------------- candidates

  ghost predicate Routed(store: Store, client: Client, routes: seq<(Id, string)>, e: Entry) {
    exists i :: 0 <= i < |routes| && RoutedBy(store, client, routes[i], e)
  }

  ghost predicate RoutedBy(store: Store, client: Client, route: (Id, string), e: Entry) {
    route == (e.upstream.id, e.model) && Serving(store, client, e.upstream.id) && Stored(store, e)
  }

  /** The routed candidates are exactly the routes to serving upstreams, with the rows stored for them. */
  lemma {:induction false} RoutedIff(store: Store, client: Client, routes: seq<(Id, string)>, e: Entry)
    requires store.Coherent()
    ensures e in RouteCandidates(store, client, routes) <==> Routed(store, client, routes, e)
  {
    if routes == [] {
    } else {
      var init, last := routes[..|routes| - 1], routes[|routes| - 1];
      RoutedIff(store, client, init, e);
      if last.0 in store.upstreams {
        UsableIff(store, client, last.0);
      }
      RoutedSnoc(store, client, init, last, e);
      SplitLast(routes);
    }
  }

  lemma RoutedSnoc(store: Store, client: Client, routes: seq<(Id, string)>, route: (Id, string), e: Entry)
    ensures Routed(store, client, routes + [route], e) <==>
            Routed(store, client, routes, e) || RoutedBy(store, client, route, e)
  {
    var more := routes + [route];
    assert more[|routes|] == route;
    assert forall i :: 0 <= i < |routes| ==> more[i] == routes[i];
    if Routed(store, client, routes, e) {
      var i :| 0 <= i < |routes| && RoutedBy(store, client, routes[i], e);
      assert RoutedBy(store, client, more[i], e);
    }
  }

  /** Whom the tenant's other upstreams are open to: active, of the client's family, not routed already, and
      with a model for the requested name. */
  ghost predicate Offered(store: Store, client: Client, used: set<Id>, u: Upstream, resolve: Id -> Option<string>,
                          e: Entry) {
    && e.upstream == u && u.status == "active" && u.id !in used && resolve(u.id) == Some(e.model)
    && (SameLetters(u.apiType, "anthropic") <==> client == AnthropicClient)
    && (var key := (u.id, e.model);
        e.visibility == if key in store.visibility then Some(store.visibility[key]) else None)
  }

  ghost predicate OfferedBy(store: Store, client: Client, used: set<Id>, tenant: seq<Upstream>,
                            resolve: Id -> Option<string>, e: Entry) {
    exists i :: 0 <= i < |tenant| && Offered(store, client, used, tenant[i], resolve, e)
  }

  lemma OfferedSnoc(store: Store, client: Client, used: set<Id>, tenant: seq<Upstream>, u: Upstream,
                    resolve: Id -> Option<string>, e: Entry)
    ensures OfferedBy(store, client, used, tenant + [u], resolve, e) <==>
            OfferedBy(store, client, used, tenant, resolve, e) || Offered(store, client, used, u, resolve, e)
  {
    var more := tenant + [u];
    assert more[|tenant|] == u;
    if OfferedBy(store, client, used, tenant, resolve, e) {
      var i :| 0 <= i < |tenant| && Offered(store, client, used, tenant[i], resolve, e);
      assert more[i] == tenant[i];
    }
    if OfferedBy(store, client, used, more, resolve, e) {
      var i :| 0 <= i < |more| && Offered(store, client, used, more[i], resolve, e);
      assert i < |tenant| ==> more[i] == tenant[i];
    }
  }

  lemma OneOffered(store: Store, client: Client, used: set<Id>, u: Upstream, resolve: Id -> Option<string>, e: Entry)
    ensures Offered(store, client, used, u, resolve, e) <==>
            Usable(u, client) && u.id !in used && resolve(u.id).Some?
            && e == Entry(u, resolve(u.id).value, store.VisibilityOf(u.id, resolve(u.id).value))
  {
    LowerIff(u.apiType, "anthropic");
  }

  /** The tenant's candidates are exactly the upstreams that are open to the request. */
  lemma {:induction false} OfferedIff(store: Store, client: Client, used: set<Id>, tenant: seq<Upstream>,
                                      resolve: Id -> Option<string>, e: Entry)
    ensures e in TenantCandidates(store, client, used, tenant, resolve) <==>
            OfferedBy(store, client, used, tenant, resolve, e)
  {
    if tenant == [] {
    } else {
      var init, last := tenant[..|tenant| - 1], tenant[|tenant| - 1];
      SplitLast(tenant);
      OfferedIff(store, client, used, init, resolve, e);
      OneOffered(store, client, used, last, resolve, e);
      OfferedSnoc(store, client, used, init, last, resolve, e);
    }
  }

  // ---------------------------------------------------------------- fallbacks

  /** The upstream and the model a failed entry routes to. */
  ghost function Target(req: Request, failed: Entry): Option<(Id, string)> {
    match failed.visibility
    case None => None
    case Some(v) =>
      if v.failureStrategy == "route" && v.fallbackUpstream.Some? then
        Some((v.fallbackUpstream.value, if v.fallbackModel.Some? then v.fallbackModel.value else req.model))
      else None
  }

  ghost predicate Open(store: Store, req: Request, tried: set<Id>, target: Option<(Id, string)>) {
    && target.Some? && target.value.0 !in tried
    && Serving(store, req.client, target.value.0) && MayUse(store, req.user, target.value.0, target.value.1)
  }

  /** A failed entry has a fallback exactly when it routes to a stored, active, untried, permitted upstream of
      the client's family; the fallback is that upstream and model, with the row stored for them. */
  lemma FallbackIff(store: Store, req: Request, failed: Entry, tried: set<Id>)
    requires store.Coherent()
    ensures var f, target := FallbackOf(store, req, failed, tried), Target(req, failed);
            && (f.Some? <==> Open(store, req, tried, target))
            && (f.Some? ==> (f.value.upstream.id, f.value.model) == target.value && Stored(store, f.value))
  {
    var target := Target(req, failed);
    if target.Some? && target.value.0 in store.upstreams {
      UsableIff(store, req.client, target.value.0);
    }
  }

  /** The entry at `k` and everything before it has been tried. */
  ghost predicate Untried(w: seq<Visit>, k: nat, tried: set<Id>, id: Id) {
    id !in tried && forall j :: 0 <= j <= k && j < |w| ==> w[j].entry.upstream.id != id
  }

  /** After the entry at `k`, there is a fallback if and only if that entry routes to an open upstream. */
  ghost predicate FallbackAfterIff(store: Store, req: Request, w: seq<Visit>, k: nat, tried: set<Id>)
    requires k < |w|
  {
    var target := Target(req, w[k].entry);
    (k + 1 < |w| && w[k + 1].fallback) <==>
    (target.Some? && Untried(w, k, tried, target.value.0)
     && Serving(store, req.client, target.value.0) && MayUse(store, req.user, target.value.0, target.value.1))
  }

  /** A fallback is what the entry before it routes to, permitted, with the row stored for it. */
  ghost predicate Permitted(store: Store, req: Request, w: seq<Visit>, k: nat)
    requires 0 < k < |w|
  {
    var e := w[k].entry;
    && Target(req, w[k - 1].entry) == Some((e.upstream.id, e.model))
    && Stored(store, e) && Serving(store, req.client, e.upstream.id)
    && MayUse(store, req.user, e.upstream.id, e.model)
  }

  ghost predicate AllPermitted(store: Store, req: Request, w: seq<Visit>, tried: set<Id>) {
    && (forall k :: 0 < k < |w| && w[k].fallback ==> Permitted(store, req, w, k))
    && forall k :: 0 <= k < |w| ==> FallbackAfterIff(store, req, w, k, tried)
  }

  lemma HeadOfNext(store: Store, req: Request, queue: seq<Visit>, tried: set<Id>)
    requires store.Coherent() && queue != [] && FallbackOnlyFirst(queue)
    ensures var next, tried' := Next(store, req, queue, tried), tried + {queue[0].entry.upstream.id};
            var target := Target(req, queue[0].entry);
            && FallbackOnlyFirst(next)
            && (next != [] && next[0].fallback <==> Open(store, req, tried', target))
            && (next != [] && next[0].fallback ==>
                  && (next[0].entry.upstream.id, next[0].entry.model) == target.value
                  && Stored(store, next[0].entry))
  {
    FallbackIff(store, req, queue[0].entry, tried + {queue[0].entry.upstream.id});
    assert [] + queue[1..] == queue[1..];
  }

  /** Over the whole walk of a request: every fallback is permitted, and one is inserted wherever the failed
      entry routes to an open upstream. */
  lemma {:induction false} FallbacksArePermitted(store: Store, req: Request, queue: seq<Visit>, tried: set<Id>)
    requires store.Coherent() && FallbackOnlyFirst(queue)
    ensures AllPermitted(store, req, Walk(store, req, queue, tried), tried)
    decreases Untouched(store, queue, tried), |queue|
  {
    if queue == [] {
    } else {
      NextDecreases(store, req, queue, tried);
      var next, tried' := Next(store, req, queue, tried), tried + {queue[0].entry.upstream.id};
      HeadOfNext(store, req, queue, tried);
      FallbacksArePermitted(store, req, next, tried');
      var w' := Walk(store, req, next, tried');
      assert AllPermitted(store, req, w', tried');
      WalkCons(store, req, queue[0], tried, w');
      assert w' != [] <==> next != [];
      assert w' != [] ==> w'[0] == next[0];
      assert Walk(store, req, queue, tried) == [queue[0]] + w';
      FirstOfWalk(store, req, queue[0], tried, w');
    }
  }

  lemma FirstOfWalk(store: Store, req: Request, v: Visit, tried: set<Id>, w': seq<Visit>)
    requires (w' != [] && w'[0].fallback) <==> Open(store, req, tried + {v.entry.upstream.id}, Target(req, v.entry))
    requires w' != [] && w'[0].fallback ==>
             (w'[0].entry.upstream.id, w'[0].entry.model) == Target(req, v.entry).value && Stored(store, w'[0].entry)
    ensures FallbackAfterIff(store, req, [v] + w', 0, tried)
    ensures w' != [] && w'[0].fallback ==> Permitted(store, req, [v] + w', 1)
  {
    var w := [v] + w';
    assert w[0] == v && (w' != [] ==> w[1] == w'[0]);
  }

  lemma WalkCons(store: Store, req: Request, v: Visit, tried: set<Id>, w': seq<Visit>)
    requires AllPermitted(store, req, w', tried + {v.entry.upstream.id})
    ensures var w := [v] + w';
            && (forall k :: 1 < k < |w| && w[k].fallback ==> Permitted(store, req, w, k))
            && forall k :: 1 <= k < |w| ==> FallbackAfterIff(store, req, w, k, tried)
  {
    var w := [v] + w';
    forall k | 1 < k < |w| && w[k].fallback ensures Permitted(store, req, w, k) {
      assert w[k] == w'[k - 1] && w[k - 1] == w'[k - 2];
      assert Permitted(store, req, w', k - 1);
    }
    forall k | 1 <= k < |w| ensures FallbackAfterIff(store, req, w, k, tried) {
      ShiftedIff(store, req, v, tried, w', k - 1);
    }
  }

  lemma ShiftedIff(store: Store, req: Request, v: Visit, tried: set<Id>, w': seq<Visit>, k: nat)
    requires k < |w'| && FallbackAfterIff(store, req, w', k, tried + {v.entry.upstream.id})
    ensures FallbackAfterIff(store, req, [v] + w', k + 1, tried)
  {
    var w, target := [v] + w', Target(req, w'[k].entry);
    assert w[k + 1] == w'[k] && (k + 1 < |w'| ==> w[k + 2] == w'[k + 1]);
    if target.Some? {
      UntriedCons(v, w', k, tried, target.value.0);
    }
  }

  lemma UntriedCons(v: Visit, w': seq<Visit>, k: nat, tried: set<Id>, id: Id)
    ensures Untried([v] + w', k + 1, tried, id) <==> Untried(w', k, tried + {v.entry.upstream.id}, id)
  {
    var w := [v] + w';
    assert w[0] == v;
    assert forall j :: 0 <= j < |w'| ==> w[j + 1] == w'[j];
    if Untried(w', k, tried + {v.entry.upstream.id}, id) {
      forall j | 0 <= j <= k + 1 && j < |w| ensures w[j].entry.upstream.id != id {
        assert j > 0 ==> w[j] == w'[j - 1];
      }
    }
    if Untried(w, k + 1, tried, id) {
      forall j | 0 <= j <= k && j < |w'| ensures w'[j].entry.upstream.id != id {
        assert w'[j] == w[j + 1];
      }
    }
  }

  // ---------------------------------------------------------------- how long an upstream is tried

  /** One attempt, and as many more as a positive retry count says; the error that is left is the last one. */
  lemma {:induction false} LastErrorIsLeft<R>(reply: nat -> Attempt<R>, attempt: nat, max: nat,
                                              last: Option<AppError>, n: nat)
    requires attempt <= n <= max && forall a :: attempt <= a < n ==> reply(a).Retryable?
    requires n < max ==> reply(n).Limited? || reply(n).Unbuildable?
    ensures var before := if n == attempt then last else Some(reply(n - 1).error);
            Attempts(reply, attempt, max, last) ==
            Exhausted(if n < max && reply(n).Limited? then Some(reply(n).error) else before)
    decreases n - attempt
  {
    if attempt == n {
    } else {
      LastErrorIsLeft(reply, attempt + 1, max, Some(reply(attempt).error), n);
    }
  }

  lemma AttemptLimit(e: Entry)
    ensures e.visibility.None? ==> MaxAttempts(e) == 1
    ensures e.visibility.Some? ==>
            var retries := e.visibility.value.retryCount;
            MaxAttempts(e) == 1 + if retries > 0 then retries else 0
  {
  }

  /** A request that gives up without any error says so in the terms of the client's API. */
  lemma UnavailableNamesTheApi()
    ensures Unavailable(AnthropicClient) == ServiceUnavailable("All Anthropic upstreams are unavailable")
    ensures Unavailable(OpenAiClient) == ServiceUnavailable("All upstreams are unavailable")
  {
  }
}
