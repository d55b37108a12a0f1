/** Who gets which model under which name: the lookup of a requested model, said over the tables
    (src/store/mod.rs, `resolve_requested_model`; src/db/model_visibility.rs, `set_model_visibility`). */
module ModelAccess {
  import opened Wrappers
  import opened Text
  import opened AliasText
  import opened AdminTables
  import opened AliasNamespace
  import opened ResolveModel
  import Json

  // ---------------------------------------------------------------- the answer, over the cached rows

  /** The row that carries the requested name as an alias, for an upstream that is not Ollama. */
  ghost predicate Carries(q: Query, key: ModelKey) {
    key in q.cache && key.0 == q.upstream && q.requested in q.cache[key].aliases
  }

  ghost predicate MayUse(q: Query, key: ModelKey)
    requires key in q.cache
  {
    q.cache[key].allUsers || q.user in q.cache[key].allowed
  }

  /** The model that carries the name as an alias, else the model of that name, each only for its users; any
      name if the upstream has no rules at all; and nothing that the upstream does not declare. */
  ghost predicate Resolved(q: Query, r: Option<string>) {
    var named := (q.upstream, q.requested);
    if q.models != [] && q.requested !in q.models then r == None
    else if exists key :: Carries(q, key) then
      exists key :: Carries(q, key) && r == if MayUse(q, key) then Some(key.1) else None
    else if named in q.cache then r == if MayUse(q, named) then Some(q.requested) else None
    else if exists key :: key in q.cache && key.0 == q.upstream then r == None
    else r == Some(q.requested)
  }

  lemma HitsAreRows(q: Query)
    requires !q.isOllama
    ensures Supported(q) <==> q.models == [] || q.requested in q.models
    ensures forall key :: key in AliasHits(q) <==> Carries(q, key)
    ensures forall key :: key in NameHits(q) <==>
              key in q.cache && key == (q.upstream, q.requested) && !Carries(q, key)
    ensures forall key :: key in q.cache ==> (Allows(q.cache[key], q.user) <==> MayUse(q, key))
  {
    forall key: ModelKey | key in q.cache
      ensures HitByAlias(q, key) <==> Carries(q, key)
    {
      if Carries(q, key) {
        var aliases := q.cache[key].aliases;
        var i :| 0 <= i < |aliases| && aliases[i] == q.requested;
        assert NameMatches(aliases[i], q.requested, q.isOllama);
      }
    }
    if q.requested in q.models {
      var i :| 0 <= i < |q.models| && q.models[i] == q.requested;
      assert NameMatches(q.models[i], q.requested, q.isOllama);
    }
  }

  lemma AnswerIsResolved(q: Query, r: Option<string>)
    requires !q.isOllama && Answer(q, r)
    ensures Resolved(q, r)
  {
    HitsAreRows(q);
    var named := (q.upstream, q.requested);
    if AliasHits(q) != {} {
      var any :| any in AliasHits(q);
      assert Carries(q, any);
    } else if named in q.cache {
      assert named in NameHits(q);
    } else if Rules(q) != {} {
      var any :| any in Rules(q);
    }
  }

  /** For every database an administrator can reach, every non-Ollama upstream and every iteration order of the
      cache, a lookup gives what the rows say. */
  lemma LookupIsResolved(ops: seq<AdminOp>, q: Query, order: seq<ModelKey>)
    requires q.cache == CacheOf(RunAll(Db(map[], map[], []), ops)) && !q.isOllama && Enumerates(q, order)
    ensures Resolved(q, ResolveIn(q, order))
  {
    ResolutionIsDeterministic(ops, q, order, order);
    AnswerIsResolved(q, ResolveIn(q, order));
  }

  // ---------------------------------------------------------------- from the form to the lookup

  /** The users an administrator's form opens a model to. */
  ghost predicate OpenTo(input: VisibilityInput, user: Id) {
    input.allUsers || user in input.userIds
  }

  /** The rows after a form was accepted: the model's own as the form says, all others as they were. */
  lemma SavedRow(db: Db, key: ModelKey, input: VisibilityInput)
    requires SetVisibility(db, key, input).Ok?
    ensures var models := SetVisibility(db, key, input).value.models;
            && models.Keys == db.models.Keys + {key}
            && (forall other :: other in db.models && other != key ==> models[other] == db.models[other])
            && ParseAliases(models[key].alias) == Normalized(input.modelAliases, input.modelAlias)
            && (forall user :: OpenTo(input, user) <==> models[key].allUsers || user in models[key].users)
  {
    AliasesRoundTrip(input.modelAliases, input.modelAlias);
  }

  /** Settings that are given are stored; those that are not go back to their defaults, except headers, which
      stay what they were. */
  lemma SavedSettings(db: Db, key: ModelKey, input: VisibilityInput)
    requires SetVisibility(db, key, input).Ok?
    ensures var row := SetVisibility(db, key, input).value.models[key];
            var r := row.retry;
            && (input.retryCount == Some(r.count) || (input.retryCount == None && r.count == 0))
            && (input.retryInterval == Some(r.interval) || (input.retryInterval == None && r.interval == 0))
            && (input.retryStrategy == Some(r.strategy) || (input.retryStrategy == None && r.strategy == "fixed"))
            && (input.retryMaxInterval == Some(r.maxInterval) || (input.retryMaxInterval == None && r.maxInterval == 0))
            && (input.failureStrategy == Some(r.failureStrategy)
                || (input.failureStrategy == None && r.failureStrategy == "error"))
            && r.fallbackUpstream == input.fallbackUpstream && r.fallbackModel == input.fallbackModel
            && (input.headers == Given(row.headers)
                || (input.headers == NotGiven && key in db.models && row.headers == db.models[key].headers)
                || (input.headers == NotGiven && key !in db.models && row.headers == Json.Obj(map[])))
  {
  }

  lemma SavedCache(db: Db, key: ModelKey, input: VisibilityInput)
    requires SetVisibility(db, key, input).Ok?
    ensures var cache := CacheOf(SetVisibility(db, key, input).value);
            && key in cache && cache[key].aliases == Normalized(input.modelAliases, input.modelAlias)
            && (forall user :: OpenTo(input, user) <==> cache[key].allUsers || user in cache[key].allowed)
  {
    SavedRow(db, key, input);
  }

  lemma RunOfOneMore(ops: seq<AdminOp>, key: ModelKey, input: VisibilityInput)
    requires SetVisibility(RunAll(Db(map[], map[], []), ops), key, input).Ok?
    ensures RunAll(Db(map[], map[], []), ops + [SetModel(key, input)]) ==
            SetVisibility(RunAll(Db(map[], map[], []), ops), key, input).value
  {
    assert (ops + [SetModel(key, input)])[..|ops|] == ops;
  }

  /** From the administrator's form to a lookup: in every reachable database, after a model was given aliases
      and users, asking a non-Ollama upstream for one of the aliases leads to that model for exactly these
      users, and to nothing for all others, in every iteration order. */
  lemma SavedAliasResolves(ops: seq<AdminOp>, key: ModelKey, input: VisibilityInput, q: Query, order: seq<ModelKey>)
    requires SetVisibility(RunAll(Db(map[], map[], []), ops), key, input).Ok?
    requires q.cache == CacheOf(SetVisibility(RunAll(Db(map[], map[], []), ops), key, input).value)
    requires q.upstream == key.0 && !q.isOllama && Enumerates(q, order)
    requires q.requested in Normalized(input.modelAliases, input.modelAlias)
    requires q.models == [] || q.requested in q.models
    ensures ResolveIn(q, order) == if input.allUsers || q.user in input.userIds then Some(key.1) else None
  {
    var more := ops + [SetModel(key, input)];
    RunOfOneMore(ops, key, input);
    LookupIsResolved(more, q, order);
    SavedCache(RunAll(Db(map[], map[], []), ops), key, input);
    assert Carries(q, key) && (MayUse(q, key) <==> OpenTo(input, q.user));
    OneCarrier(more, q, key);
  }

  lemma OneCarrier(ops: seq<AdminOp>, q: Query, key: ModelKey)
    requires q.cache == CacheOf(RunAll(Db(map[], map[], []), ops)) && !q.isOllama && Carries(q, key)
    ensures forall other :: Carries(q, other) ==> other == key
  {
    NamespaceStaysSeparate(ops);
    SeparateHitsAreUnique(RunAll(Db(map[], map[], []), ops), q);
    HitsAreRows(q);
  }

  /** The same for the model's own name, when no model of the upstream has it as an alias. */
  lemma SavedModelResolves(ops: seq<AdminOp>, key: ModelKey, input: VisibilityInput, q: Query, order: seq<ModelKey>)
    requires SetVisibility(RunAll(Db(map[], map[], []), ops), key, input).Ok?
    requires q.cache == CacheOf(SetVisibility(RunAll(Db(map[], map[], []), ops), key, input).value)
    requires q.upstream == key.0 && !q.isOllama && Enumerates(q, order)
    requires q.requested == key.1 && forall other :: !Carries(q, other)
    requires q.models == [] || q.requested in q.models
    ensures ResolveIn(q, order) == if input.allUsers || q.user in input.userIds then Some(key.1) else None
  {
    RunOfOneMore(ops, key, input);
    LookupIsResolved(ops + [SetModel(key, input)], q, order);
    SavedCache(RunAll(Db(map[], map[], []), ops), key, input);
    assert key == (q.upstream, q.requested);
    assert MayUse(q, key) <==> OpenTo(input, q.user);
  }

  // ---------------------------------------------------------------- names on Ollama upstreams

  ghost predicate EndsInLatest(name: string) {
    exists base :: name == base + ":latest"
  }

  lemma LatestIsDropped(base: string)
    ensures WithoutLatest(base + ":latest") == base
  {
    var name := base + LATEST;
    assert name[|name| - |LATEST|..] == LATEST && name[..|name| - |LATEST|] == base;
  }

  lemma OtherNamesStay(name: string)
    requires !EndsInLatest(name)
    ensures WithoutLatest(name) == name
  {
    if |name| >= |LATEST| && name[|name| - |LATEST|..] == LATEST {
      assert name == name[..|name| - |LATEST|] + ":latest";
    }
  }

  /** On an Ollama upstream two names match exactly when they are equal, or equal but for one ":latest" at the
      end of one of them; elsewhere exactly when they are equal. */
  lemma NamesMatchIff(candidate: string, requested: string)
    ensures NameMatches(candidate, requested, false) <==> candidate == requested
    ensures NameMatches(candidate, requested, true) <==>
            || candidate == requested
            || (candidate == requested + ":latest" && !EndsInLatest(requested))
            || (requested == candidate + ":latest" && !EndsInLatest(candidate))
  {
    OneEnding(candidate);
    OneEnding(requested);
    LatestIsDropped(requested);
    LatestIsDropped(candidate);
  }

  lemma OneEnding(name: string)
    ensures if EndsInLatest(name) then name == WithoutLatest(name) + ":latest" else WithoutLatest(name) == name
  {
    if EndsInLatest(name) {
      var base :| name == base + ":latest";
      LatestIsDropped(base);
    } else {
      OtherNamesStay(name);
    }
  }
}
