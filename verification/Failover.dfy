/** The candidate list that grows while it is scanned
    (src/proxy/handlers.rs, the `while upstream_idx < available_upstreams.len()` loops). */
module Failover {
  import opened Wrappers
  import opened Candidates

  /** The fallback that a failed entry routes to, if all the guards let it through. */
  function FallbackOf(store: Store, req: Request, e: Entry, tried: set<Id>): Option<Entry> {
    if e.visibility.None? || e.visibility.value.failureStrategy != "route"
        || e.visibility.value.fallbackUpstream.None? then None
    else
      var v := e.visibility.value;
      var id := v.fallbackUpstream.value;
      var model := v.fallbackModel.GetOr(req.model);
      if id !in store.upstreams || !Usable(store.upstreams[id], req.client)
         || !store.Access(req.user, id, model) || id in tried then None
      else Some(Entry(store.upstreams[id], model, store.VisibilityOf(id, model)))
  }

  /** An entry of the list, and whether it was inserted as a fallback. */
  datatype Visit = Visit(entry: Entry, fallback: bool)

  /** The upstreams that are neither tried nor at the head of the queue. */
  ghost function Untouched(store: Store, queue: seq<Visit>, tried: set<Id>): set<Id> {
    store.upstreams.Keys - tried - if queue == [] then {} else {queue[0].entry.upstream.id}
  }

  /** The queue after its head has failed: the fallback, if there is one, comes next. */
  function Next(store: Store, req: Request, queue: seq<Visit>, tried: set<Id>): seq<Visit>
    requires queue != []
  {
    var f := FallbackOf(store, req, queue[0].entry, tried + {queue[0].entry.upstream.id});
    (if f.Some? then [Visit(f.value, true)] else []) + queue[1..]
  }

  /** Either an untouched upstream is used up, or the queue gets shorter. */
  lemma NextDecreases(store: Store, req: Request, queue: seq<Visit>, tried: set<Id>)
    requires store.Coherent() && queue != []
    ensures var queue', tried' := Next(store, req, queue, tried), tried + {queue[0].entry.upstream.id};
            || Untouched(store, queue', tried') < Untouched(store, queue, tried)
            || (Untouched(store, queue', tried') <= Untouched(store, queue, tried) && |queue'| < |queue|)
  {
    var f := FallbackOf(store, req, queue[0].entry, tried + {queue[0].entry.upstream.id});
    if f.Some? {
      assert f.value.upstream.id in Untouched(store, queue, tried);
    }
  }

  /** The order in which entries are processed when every one of them fails. */
  ghost function Walk(store: Store, req: Request, queue: seq<Visit>, tried: set<Id>): seq<Visit>
    requires store.Coherent()
    decreases Untouched(store, queue, tried), |queue|
  {
    if queue == [] then []
    else
      NextDecreases(store, req, queue, tried);
      [queue[0]] + Walk(store, req, Next(store, req, queue, tried), tried + {queue[0].entry.upstream.id})
  }

  function Initial(entries: seq<Entry>): seq<Visit> {
    seq(|entries|, i requires 0 <= i < |entries| => Visit(entries[i], false))
  }

  function Entries(visits: seq<Visit>): seq<Entry> {
    seq(|visits|, i requires 0 <= i < |visits| => visits[i].entry)
  }

  // ---------------------------------------------------------------- the loop

  /** How a round ends, given the error left by the rounds before it. */
  function Round<R>(e: Entry, round: nat, reply: nat -> nat -> Attempt<R>, last: Option<AppError>): RoundEnd<R> {
    Attempts(reply(round), 0, MaxAttempts(e), last)
  }

  /** The error that is left after all entries failed. */
  function LastError<R>(entries: seq<Entry>, reply: nat -> nat -> Attempt<R>): Option<AppError> {
    if entries == [] then None
    else
      var n := |entries| - 1;
      var end := Round(entries[n], n, reply, LastError(entries[..n], reply));
      if end.Exhausted? then end.lastError else None
  }

  ghost predicate AllExhausted<R>(entries: seq<Entry>, reply: nat -> nat -> Attempt<R>) {
    forall k {:trigger entries[k]} :: 0 <= k < |entries| ==>
      Round(entries[k], k, reply, LastError(entries[..k], reply)).Exhausted?
  }

  lemma ExhaustedSnoc<R>(entries: seq<Entry>, e: Entry, reply: nat -> nat -> Attempt<R>)
    requires AllExhausted(entries, reply)
    ensures var end := Round(e, |entries|, reply, LastError(entries, reply));
            end.Exhausted? ==> AllExhausted(entries + [e], reply) && LastError(entries + [e], reply) == end.lastError
  {
    assert (entries + [e])[..|entries|] == entries;
    assert forall k :: 0 <= k < |entries| ==> (entries + [e])[..k] == entries[..k];
  }

  function Unavailable(client: Client): AppError {
    ServiceUnavailable(
      if client.AnthropicClient? then "All Anthropic upstreams are unavailable" else "All upstreams are unavailable")
  }

  /** One turn of the outer loop after the entry at `idx` has failed: `available` with the fallback inserted. */
  method InsertFallback(store: Store, req: Request, available: seq<Entry>, idx: nat, tried: seq<Id>,
                        ghost done: seq<Visit>, ghost queue: seq<Visit>, ghost before: set<Id>)
    returns (extended: seq<Entry>)
    requires idx < |available| && available == Entries(done) + Entries(queue) && |done| == idx
    requires forall id :: id in tried <==> id in before + {available[idx].upstream.id}
    ensures extended == Entries(done + [queue[0]]) + Entries(Next(store, req, queue, before))
  {
    var e := available[idx];
    assert queue[0].entry == e;
    assert (set id | id in tried) == before + {e.upstream.id};
    var fallback := FallbackOf(store, req, e, set id | id in tried);
    extended := available;
    assert available[..idx + 1] == Entries(done + [queue[0]]);
    assert available[idx + 1..] == Entries(queue[1..]);
    if fallback.Some? {
      var insertPos := idx + 1;
      extended := available[..insertPos] + [fallback.value] + available[insertPos..];
    }
  }

  /** What holds at the head of the outer loop; `done` has been processed, `queue` is still ahead. */
  ghost predicate Scanning<R>(store: Store, req: Request, reply: nat -> nat -> Attempt<R>, walk: seq<Visit>,
                              available: seq<Entry>, done: seq<Visit>, queue: seq<Visit>, tried: set<Id>,
                                  lastError: Option<AppError>)
    requires store.Coherent()
  {
    && available == Entries(done) + Entries(queue)
    && walk == done + Walk(store, req, queue, tried)
    && lastError == LastError(Entries(done), reply)
    && AllExhausted(Entries(done), reply)
  }

  lemma ScanOn<R>(store: Store, req: Request, reply: nat -> nat -> Attempt<R>, walk: seq<Visit>,
                  available: seq<Entry>, done: seq<Visit>, queue: seq<Visit>, tried: set<Id>,
                      lastError: Option<AppError>,
                  end: RoundEnd<R>, extended: seq<Entry>)
    requires store.Coherent() && queue != []
             && Scanning(store, req, reply, walk, available, done, queue, tried, lastError)
    requires end == Round(queue[0].entry, |done|, reply, lastError) && end.Exhausted?
    requires extended == Entries(done + [queue[0]]) + Entries(Next(store, req, queue, tried))
    ensures Scanning(store, req, reply, walk, extended, done + [queue[0]], Next(store, req, queue, tried),
                     tried + {queue[0].entry.upstream.id}, end.lastError)
  {
    ExhaustedSnoc(Entries(done), queue[0].entry, reply);
    EntriesSnoc(done, queue[0]);
    WalkStep(store, req, queue, tried, done);
  }

  lemma EntriesSnoc(done: seq<Visit>, v: Visit)
    ensures Entries(done + [v]) == Entries(done) + [v.entry]
  {
  }

  lemma WalkStep(store: Store, req: Request, queue: seq<Visit>, tried: set<Id>, done: seq<Visit>)
    requires store.Coherent() && queue != []
    ensures done + Walk(store, req, queue, tried) ==
            (done + [queue[0]]) + Walk(store, req, Next(store, req, queue, tried), tried + {queue[0].entry.upstream.id})
  {
  }

  lemma ScanEnds<R>(store: Store, req: Request, reply: nat -> nat -> Attempt<R>, walk: seq<Visit>,
                    available: seq<Entry>, done: seq<Visit>, queue: seq<Visit>, tried: set<Id>,
                        lastError: Option<AppError>)
    requires store.Coherent() && Scanning(store, req, reply, walk, available, done, queue, tried, lastError)
    ensures queue != [] ==> Entries(done) + [queue[0].entry] == available[..|done| + 1] <= Entries(walk)
    ensures queue == [] ==> available == Entries(walk)
  {
    if queue != [] {
      assert Walk(store, req, queue, tried)[0] == queue[0];
      assert Entries(walk)[..|done| + 1] == Entries(done) + [queue[0].entry];
    }
  }

  /** Processes the candidates until one answers; `processed` lists the entries in processing order. */
  method RunFailover<R>(store: Store, req: Request, candidates: seq<Entry>, reply: nat -> nat -> Attempt<R>,
                        nanos: nat -> nat)
    returns (result: Result<R, AppError>, processed: seq<Entry>)
    requires store.Coherent()
    ensures processed <= Entries(Walk(store, req, Initial(candidates), {}))
    ensures result.Ok? ==>
              && processed != []
              && var failed, last := processed[..|processed| - 1], processed[|processed| - 1];
                 && AllExhausted(failed, reply)
                 && Round(last, |failed|, reply, LastError(failed, reply)) == Succeeded(result.value)
    ensures result.Err? ==>
              && processed == Entries(Walk(store, req, Initial(candidates), {}))
              && AllExhausted(processed, reply)
              && result.error == LastError(processed, reply).GetOr(Unavailable(req.client))
  {
    var available := candidates;
    var triedUpstreamIds: seq<Id> := [];
    var upstreamIdx := 0;
    var lastError: Option<AppError> := None;
    ghost var done: seq<Visit>, queue, tried: set<Id> := [], Initial(candidates), {};
    ghost var walk := Walk(store, req, queue, tried);
    while upstreamIdx < |available|
      invariant upstreamIdx == |done| && Scanning(store, req, reply, walk, available, done, queue, tried, lastError)
      invariant forall id :: id in triedUpstreamIds <==> id in tried
      decreases Untouched(store, queue, tried), |queue|
    {
      var e := available[upstreamIdx];
      assert queue[0].entry == e;
      NextDecreases(store, req, queue, tried);
      var end, _, _ := RetryLoop(e, reply(upstreamIdx), nanos, lastError);
      if end.Succeeded? {
        ScanEnds(store, req, reply, walk, available, done, queue, tried, lastError);
        processed := available[..upstreamIdx + 1];
        assert processed[..upstreamIdx] == Entries(done);
        return Ok(end.response), processed;
      }
      triedUpstreamIds := triedUpstreamIds + [e.upstream.id];
      var extended := InsertFallback(store, req, available, upstreamIdx, triedUpstreamIds, done, queue, tried);
      ScanOn(store, req, reply, walk, available, done, queue, tried, lastError, end, extended);
      available, lastError := extended, end.lastError;
      done, queue, tried := done + [queue[0]], Next(store, req, queue, tried), tried + {e.upstream.id};
      upstreamIdx := upstreamIdx + 1;
    }
    ScanEnds(store, req, reply, walk, available, done, queue, tried, lastError);
    processed := available;
    assert processed == Entries(done) + Entries(queue) == Entries(done);
    result := Err(if lastError.Some? then lastError.value else Unavailable(req.client));
  }

  // ---------------------------------------------------------------- what a full scan processes

  function Given(visits: seq<Visit>): seq<Entry> {
    if visits == [] then [] else (if visits[0].fallback then [] else [visits[0].entry]) + Given(visits[1..])
  }

  function FallbackIds(visits: seq<Visit>): seq<Id> {
    if visits == [] then []
    else (if visits[0].fallback then [visits[0].entry.upstream.id] else []) + FallbackIds(visits[1..])
  }

  /** Does a failed entry route to this one? */
  predicate Names(req: Request, failed: Entry, next: Entry) {
    && failed.visibility.Some?
    && failed.visibility.value.failureStrategy == "route"
    && failed.visibility.value.fallbackUpstream == Some(next.upstream.id)
    && failed.visibility.value.fallbackModel.GetOr(req.model) == next.model
  }

  ghost predicate FallbackOnlyFirst(queue: seq<Visit>) {
    forall i :: 0 < i < |queue| ==> !queue[i].fallback
  }

  ghost predicate Distinct(ids: seq<Id>) {
    forall i, j :: 0 <= i < j < |ids| ==> ids[i] != ids[j]
  }

  /** The queue after a failure: a usable fallback named by the failed entry, or just the rest. */
  lemma NextHead(store: Store, req: Request, queue: seq<Visit>, tried: set<Id>)
    requires store.Coherent() && queue != []
    ensures var next := Next(store, req, queue, tried);
            || next == queue[1..]
            || (next == [next[0]] + queue[1..] && next[0].fallback && Names(req, queue[0].entry, next[0].entry)
                && Usable(next[0].entry.upstream, req.client))
  {
    assert [] + queue[1..] == queue[1..];
  }

  lemma GivenOfNext(store: Store, req: Request, queue: seq<Visit>, tried: set<Id>)
    requires store.Coherent() && queue != []
    ensures Given(Next(store, req, queue, tried)) == Given(queue[1..])
  {
    NextHead(store, req, queue, tried);
    var next := Next(store, req, queue, tried);
    if next != queue[1..] {
      assert next[1..] == queue[1..];
      assert [] + Given(next[1..]) == Given(next[1..]);
    }
  }

  lemma GivenOfCons(v: Visit, rest: seq<Visit>)
    ensures Given([v] + rest) == (if v.fallback then [] else [v.entry]) + Given(rest)
  {
    assert ([v] + rest)[1..] == rest;
  }

  lemma {:induction false} WalkKeepsGiven(store: Store, req: Request, queue: seq<Visit>, tried: set<Id>)
    requires store.Coherent()
    ensures Given(Walk(store, req, queue, tried)) == Given(queue)
    decreases Untouched(store, queue, tried), |queue|
  {
    if queue == [] {
    } else {
      NextDecreases(store, req, queue, tried);
      var next, tried' := Next(store, req, queue, tried), tried + {queue[0].entry.upstream.id};
      WalkKeepsGiven(store, req, next, tried');
      GivenOfNext(store, req, queue, tried);
      GivenOfCons(queue[0], Walk(store, req, next, tried'));
      GivenOfCons(queue[0], queue[1..]);
      assert queue == [queue[0]] + queue[1..];
    }
  }

  /** Every fallback comes directly after the entry that names it. */
  ghost predicate FallbacksNamed(req: Request, w: seq<Visit>) {
    forall j, k :: 0 <= j < |w| && 0 <= k < |w| && k == j + 1 && w[k].fallback ==> Names(req, w[j].entry, w[k].entry)
  }

  lemma {:induction false} FallbacksFollow(store: Store, req: Request, queue: seq<Visit>, tried: set<Id>)
    requires store.Coherent() && FallbackOnlyFirst(queue)
    ensures FallbacksNamed(req, Walk(store, req, queue, tried))
    decreases Untouched(store, queue, tried), |queue|
  {
    if queue == [] {
    } else {
      NextDecreases(store, req, queue, tried);
      var next, tried' := Next(store, req, queue, tried), tried + {queue[0].entry.upstream.id};
      FallbacksFollow(store, req, next, tried');
      NextHead(store, req, queue, tried);
      var w, w' := Walk(store, req, queue, tried), Walk(store, req, next, tried');
      assert w == [queue[0]] + w';
      assert w' != [] ==> w'[0] == next[0];
      forall j, k | 0 <= j < |w| && 0 <= k < |w| && k == j + 1 && w[k].fallback
        ensures Names(req, w[j].entry, w[k].entry)
      {
        assert w[k] == w'[j];
        if j > 0 {
          assert w[j] == w'[j - 1];
        }
      }
    }
  }

  lemma {:induction false} FallbacksAreFresh(store: Store, req: Request, queue: seq<Visit>, tried: set<Id>)
    requires store.Coherent() && FallbackOnlyFirst(queue) && queue != []
    ensures var ids := FallbackIds(Walk(store, req, queue, tried)[1..]);
            Distinct(ids) && forall i :: 0 <= i < |ids| ==> ids[i] in Untouched(store, queue, tried)
    decreases Untouched(store, queue, tried), |queue|
  {
    NextDecreases(store, req, queue, tried);
    var next, tried' := Next(store, req, queue, tried), tried + {queue[0].entry.upstream.id};
    var w' := Walk(store, req, next, tried');
    assert Walk(store, req, queue, tried)[1..] == w';
    if next == [] {
    } else {
      FallbacksAreFresh(store, req, next, tried');
      assert w'[0] == next[0];
      if next[0].fallback {
        assert FallbackIds(w') == [next[0].entry.upstream.id] + FallbackIds(w'[1..]);
      } else {
        assert FallbackIds(w') == FallbackIds(w'[1..]);
      }
    }
  }

  ghost predicate VisitsUsable(visits: seq<Visit>, client: Client) {
    forall i :: 0 <= i < |visits| ==> Usable(visits[i].entry.upstream, client)
  }

  lemma NextIsUsable(store: Store, req: Request, queue: seq<Visit>, tried: set<Id>)
    requires store.Coherent() && queue != [] && VisitsUsable(queue, req.client)
    ensures VisitsUsable(Next(store, req, queue, tried), req.client)
  {
    NextHead(store, req, queue, tried);
    assert VisitsUsable(queue[1..], req.client);
  }

  lemma {:induction false} WalkIsUsable(store: Store, req: Request, queue: seq<Visit>, tried: set<Id>)
    requires store.Coherent() && VisitsUsable(queue, req.client)
    ensures VisitsUsable(Walk(store, req, queue, tried), req.client)
    decreases Untouched(store, queue, tried), |queue|
  {
    if queue == [] {
    } else {
      NextDecreases(store, req, queue, tried);
      NextIsUsable(store, req, queue, tried);
      var next, tried' := Next(store, req, queue, tried), tried + {queue[0].entry.upstream.id};
      WalkIsUsable(store, req, next, tried');
      var rest := Walk(store, req, next, tried');
      assert Walk(store, req, queue, tried) == [queue[0]] + rest;
      assert VisitsUsable([queue[0]] + rest, req.client);
    }
  }

  lemma {:induction false} LengthOfMarks(visits: seq<Visit>)
    ensures |visits| == |Given(visits)| + |FallbackIds(visits)|
  {
    if visits == [] {
    } else {
      LengthOfMarks(visits[1..]);
    }
  }

  lemma {:induction false} DistinctFits(ids: seq<Id>, pool: set<Id>)
    requires Distinct(ids) && forall i :: 0 <= i < |ids| ==> ids[i] in pool
    ensures |ids| <= |pool|
  {
    if ids == [] {
    } else {
      DistinctFits(ids[1..], pool - {ids[0]});
    }
  }

  lemma {:induction false} GivenOfInitial(entries: seq<Entry>)
    ensures Given(Initial(entries)) == entries && FallbackIds(Initial(entries)) == []
  {
    if entries == [] {
    } else {
      assert Initial(entries)[1..] == Initial(entries[1..]);
      GivenOfInitial(entries[1..]);
    }
  }

  /** The fallbacks of a full scan are distinct upstreams of the store other than the first candidate's,
      which bounds the number of rounds. */
  lemma FallbacksAreBounded(store: Store, req: Request, queue: seq<Visit>)
    requires store.Coherent() && FallbackOnlyFirst(queue) && queue != [] && !queue[0].fallback
    ensures var w, others := Walk(store, req, queue, {}), store.upstreams.Keys - {queue[0].entry.upstream.id};
            && w != [] && w[0] == queue[0]
            && Distinct(FallbackIds(w))
            && (forall i :: 0 <= i < |FallbackIds(w)| ==> FallbackIds(w)[i] in others)
            && |w| <= |Given(w)| + |others|
  {
    var w, others := Walk(store, req, queue, {}), store.upstreams.Keys - {queue[0].entry.upstream.id};
    FallbacksAreFresh(store, req, queue, {});
    assert w[0] == queue[0];
    assert FallbackIds(w) == FallbackIds(w[1..]);
    assert Untouched(store, queue, {}) == others;
    LengthOfMarks(w);
    DistinctFits(FallbackIds(w), others);
  }

  /** A request that gives up has processed its initial candidates in order, interleaved with fallbacks:
      each fallback comes directly after the entry that names it, no upstream is inserted twice (nor is
      the first candidate's), so there are at most as many rounds as candidates plus other upstreams,
      and every processed upstream is active and speaks the client's API. */
  lemma GivingUpProcesses(store: Store, req: Request, candidates: seq<Entry>)
    requires store.Coherent() && AllUsable(candidates, req.client) && candidates != []
    ensures var w := Walk(store, req, Initial(candidates), {});
            && w != [] && Given(w) == candidates
            && FallbacksNamed(req, w) && !w[0].fallback
            && Distinct(FallbackIds(w))
            && (forall i ::
                0 <= i < |FallbackIds(w)| ==>
                    FallbackIds(w)[i] in store.upstreams && FallbackIds(w)[i] != candidates[0].upstream.id)
            && |w| <= |candidates| + |store.upstreams.Keys - {candidates[0].upstream.id}|
            && AllUsable(Entries(w), req.client)
  {
    var queue := Initial(candidates);
    WalkKeepsGiven(store, req, queue, {});
    GivenOfInitial(candidates);
    FallbacksFollow(store, req, queue, {});
    FallbacksAreBounded(store, req, queue);
    WalkIsUsable(store, req, queue, {});
  }
}
