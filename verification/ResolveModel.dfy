/** Which upstream model a requested name stands for (src/store/mod.rs, `resolve_requested_model`). */
module ResolveModel {
  import opened Wrappers
  import opened Text
  import opened AliasText
  import opened AdminTables
  import opened AliasNamespace

  datatype Visible = Visible(aliases: seq<string>, allUsers: bool, allowed: seq<Id>)

  type Cache = map<ModelKey, Visible>

  /** One lookup: the visibility cache, the upstream's kind and declared models, who asks for what. */
  datatype Query = Query(cache: Cache, upstream: Id, isOllama: bool, models: seq<string>, user: Id, requested: string)

  const LATEST := ":latest"

  function WithoutLatest(model: string): string {
    if |model| >= |LATEST| && model[|model| - |LATEST|..] == LATEST then model[..|model| - |LATEST|] else model
  }

  predicate NameMatches(candidate: string, requested: string, isOllama: bool) {
    candidate == requested || (isOllama && WithoutLatest(candidate) == WithoutLatest(requested))
  }

  predicate Supported(q: Query) {
    q.models == [] || exists i | 0 <= i < |q.models| :: NameMatches(q.models[i], q.requested, q.isOllama)
  }

  predicate Allows(v: Visible, user: Id) {
    v.allUsers || user in v.allowed
  }

  predicate HitByAlias(q: Query, key: ModelKey)
    requires key in q.cache
  {
    key.0 == q.upstream &&
    exists i | 0 <= i < |q.cache[key].aliases| :: NameMatches(q.cache[key].aliases[i], q.requested, q.isOllama)
  }

  predicate HitByName(q: Query, key: ModelKey)
    requires key in q.cache
  {
    key.0 == q.upstream && !HitByAlias(q, key) && NameMatches(key.1, q.requested, q.isOllama)
  }

  // ---------------------------------------------------------------- the lookup without iteration

  ghost function Rules(q: Query): set<ModelKey> {
    set key | key in q.cache && key.0 == q.upstream
  }

  ghost function AliasHits(q: Query): set<ModelKey> {
    set key | key in q.cache && HitByAlias(q, key)
  }

  ghost function AllowedHits(q: Query): set<ModelKey> {
    set key | key in q.cache && HitByAlias(q, key) && Allows(q.cache[key], q.user)
  }

  ghost function NameHits(q: Query): set<ModelKey> {
    set key | key in q.cache && HitByName(q, key)
  }

  ghost function FirstIn(order: seq<ModelKey>, keys: set<ModelKey>): Option<ModelKey> {
    if order == [] then None
    else
      var before := FirstIn(order[..|order| - 1], keys);
      if before.Some? then before else if order[|order| - 1] in keys then Some(order[|order| - 1]) else None
  }

  ghost function LastIn(order: seq<ModelKey>, keys: set<ModelKey>): Option<ModelKey> {
    if order == [] then None
    else if order[|order| - 1] in keys then Some(order[|order| - 1])
    else LastIn(order[..|order| - 1], keys)
  }

  /** What the lookup returns when the cache is visited in a given order: the first permitted alias hit
      wins; an alias hit that is not permitted blocks; otherwise the last hit by name decides; rules that
      do not hit block; without rules the requested name is passed on. */
  ghost function ResolveIn(q: Query, order: seq<ModelKey>): Option<string> {
    var alias, direct := FirstIn(order, AllowedHits(q)), LastIn(order, NameHits(q));
    if !Supported(q) then None
    else if alias.Some? then Some(alias.value.1)
    else if AliasHits(q) != {} then None
    else if direct.Some? then
      if direct.value in q.cache && Allows(q.cache[direct.value], q.user) then Some(direct.value.1) else None
    else if Rules(q) != {} then None
    else Some(q.requested)
  }

  /** A possible iteration order of the concurrent map: every key once. */
  ghost predicate Enumerates(q: Query, order: seq<ModelKey>) {
    && (forall key :: key in order <==> key in q.cache)
    && (forall i, j :: 0 <= i < j < |order| ==> order[i] != order[j])
  }

  method ResolveRequestedModel(q: Query, order: seq<ModelKey>) returns (r: Option<string>)
    requires Enumerates(q, order)
    ensures r == ResolveIn(q, order)
  {
    if q.models != [] && !Supported(q) {
      return None;
    }
    var directMatch: Option<ModelKey> := None;
    var aliasMatchedButForbidden, hasVisibilityRule := false, false;
    for i := 0 to |order|
      invariant FirstIn(order[..i], AllowedHits(q)).None?
      invariant aliasMatchedButForbidden == FirstIn(order[..i], AliasHits(q)).Some?
      invariant hasVisibilityRule == FirstIn(order[..i], Rules(q)).Some?
      invariant directMatch == LastIn(order[..i], NameHits(q))
    {
      assert order[..i + 1][..i] == order[..i];
      var key := order[i];
      if key.0 != q.upstream {
        continue;
      }
      hasVisibilityRule := true;
      if HitByAlias(q, key) {
        if Allows(q.cache[key], q.user) {
          FirstInStays(order, i + 1, AllowedHits(q));
          return Some(key.1);
        }
        aliasMatchedButForbidden := true;
        continue;
      }
      if NameMatches(key.1, q.requested, q.isOllama) {
        directMatch := Some(key);
      }
    }
    assert order[..|order|] == order;
    NothingMissed(q, order);
    if aliasMatchedButForbidden {
      return None;
    }
    if directMatch.Some? {
      return if Allows(q.cache[directMatch.value], q.user) then Some(directMatch.value.1) else None;
    }
    return if hasVisibilityRule then None else Some(q.requested);
  }

  /** A full iteration sees every key. */
  lemma NothingMissed(q: Query, order: seq<ModelKey>)
    requires Enumerates(q, order)
    ensures FirstIn(order, AliasHits(q)).None? <==> AliasHits(q) == {}
    ensures FirstIn(order, Rules(q)).None? <==> Rules(q) == {}
    ensures LastIn(order, NameHits(q)).Some? ==> LastIn(order, NameHits(q)).value in q.cache
  {
    FirstInIsMember(order, AliasHits(q));
    FirstInIsMember(order, Rules(q));
    LastInIsMember(order, NameHits(q));
    assert forall key :: key in AliasHits(q) || key in Rules(q) ==> key in order;
  }

  lemma {:induction false} FirstInStays(order: seq<ModelKey>, i: nat, keys: set<ModelKey>)
    requires i <= |order| && FirstIn(order[..i], keys).Some?
    ensures FirstIn(order, keys) == FirstIn(order[..i], keys)
    decreases |order|
  {
    if i < |order| {
      assert order[..|order| - 1][..i] == order[..i];
      FirstInStays(order[..|order| - 1], i, keys);
    } else {
      assert order[..i] == order;
    }
  }

  lemma {:induction false} LastInIsMember(order: seq<ModelKey>, keys: set<ModelKey>)
    ensures LastIn(order, keys).Some? ==> LastIn(order, keys).value in keys && LastIn(order, keys).value in order
    ensures LastIn(order, keys).None? ==> forall key :: key in order ==> key !in keys
  {
    if order == [] {
    } else {
      LastInIsMember(order[..|order| - 1], keys);
      SplitLast(order);
    }
  }

  lemma {:induction false} FirstInIsMember(order: seq<ModelKey>, keys: set<ModelKey>)
    ensures FirstIn(order, keys).Some? ==> FirstIn(order, keys).value in keys && FirstIn(order, keys).value in order
    ensures FirstIn(order, keys).None? ==> forall key :: key in order ==> key !in keys
  {
    if order == [] {
    } else {
      FirstInIsMember(order[..|order| - 1], keys);
      SplitLast(order);
    }
  }

  // ---------------------------------------------------------------- when the order does not matter

  ghost predicate AtMostOne(keys: set<ModelKey>) {
    forall a, b :: a in keys && b in keys ==> a == b
  }

  /** At most one permitted alias hit, and if no alias hits at all, at most one hit by name unless none
      of them is permitted. */
  ghost predicate Determined(q: Query) {
    || !Supported(q)
    || (AllowedHits(q) != {} && AtMostOne(AllowedHits(q)))
    || (AllowedHits(q) == {} && AliasHits(q) != {})
    || (AliasHits(q) == {} && AtMostOne(NameHits(q)))
    || (AliasHits(q) == {} && forall key :: key in NameHits(q) ==> !Allows(q.cache[key], q.user))
  }

  lemma DeterminedAgrees(q: Query, a: seq<ModelKey>, b: seq<ModelKey>)
    requires Determined(q) && Enumerates(q, a) && Enumerates(q, b)
    ensures ResolveIn(q, a) == ResolveIn(q, b)
  {
    FirstInIsMember(a, AllowedHits(q));
    FirstInIsMember(b, AllowedHits(q));
    LastInIsMember(a, NameHits(q));
    LastInIsMember(b, NameHits(q));
    assert AllowedHits(q) != {} ==> exists key :: key in AllowedHits(q) && key in a && key in b;
    assert AllowedHits(q) <= AliasHits(q);
  }

  lemma {:induction false} Enumerate(keys: set<ModelKey>) returns (order: seq<ModelKey>)
    ensures forall key :: key in order <==> key in keys
    ensures forall i, j :: 0 <= i < j < |order| ==> order[i] != order[j]
  {
    if keys == {} {
      order := [];
    } else {
      var key :| key in keys;
      var rest := Enumerate(keys - {key});
      order := [key] + rest;
    }
  }

  lemma FirstInOfHead(order: seq<ModelKey>, keys: set<ModelKey>)
    requires order != [] && order[0] in keys
    ensures FirstIn(order, keys) == Some(order[0])
    decreases |order|
  {
    if |order| > 1 {
      FirstInOfHead(order[..|order| - 1], keys);
    } else {
      assert order[..0] == [];
    }
  }

  /** An iteration order that starts, or ends, with a given key. */
  lemma Starting(q: Query, key: ModelKey) returns (order: seq<ModelKey>)
    requires key in q.cache
    ensures Enumerates(q, order) && order != [] && order[0] == key
  {
    var rest := Enumerate(q.cache.Keys - {key});
    order := [key] + rest;
  }

  lemma Ending(q: Query, key: ModelKey) returns (order: seq<ModelKey>)
    requires key in q.cache
    ensures Enumerates(q, order) && order != [] && order[|order| - 1] == key
  {
    var rest := Enumerate(q.cache.Keys - {key});
    order := rest + [key];
  }

  lemma TwoAliasHitsDisagree(q: Query, a: ModelKey, b: ModelKey) returns (first: seq<ModelKey>, second: seq<ModelKey>)
    requires Supported(q) && a in AllowedHits(q) && b in AllowedHits(q) && a != b
    ensures Enumerates(q, first) && Enumerates(q, second) && ResolveIn(q, first) != ResolveIn(q, second)
  {
    first := Starting(q, a);
    second := Starting(q, b);
    FirstInOfHead(first, AllowedHits(q));
    FirstInOfHead(second, AllowedHits(q));
    assert a.1 != b.1;
  }

  lemma TwoNameHitsDisagree(q: Query, a: ModelKey, b: ModelKey) returns (first: seq<ModelKey>, second: seq<ModelKey>)
    requires Supported(q) && AliasHits(q) == {} && a in NameHits(q) && b in NameHits(q) && a != b
             && Allows(q.cache[a], q.user)
    ensures Enumerates(q, first) && Enumerates(q, second) && ResolveIn(q, first) != ResolveIn(q, second)
  {
    first := Ending(q, a);
    second := Ending(q, b);
    assert AllowedHits(q) <= AliasHits(q);
    FirstInIsMember(first, AllowedHits(q));
    FirstInIsMember(second, AllowedHits(q));
    assert a.1 != b.1;
  }

  /** The answer is the same for every iteration order of the map if and only if the lookup is determined. */
  lemma OrderIrrelevantIffDetermined(q: Query)
    ensures (forall a, b :: Enumerates(q, a) && Enumerates(q, b) ==> ResolveIn(q, a) == ResolveIn(q, b)) <==>
             Determined(q)
  {
    if Determined(q) {
      forall a, b | Enumerates(q, a) && Enumerates(q, b) ensures ResolveIn(q, a) == ResolveIn(q, b) {
        DeterminedAgrees(q, a, b);
      }
    } else if AllowedHits(q) != {} {
      var a, b :| a in AllowedHits(q) && b in AllowedHits(q) && a != b;
      var first, second := TwoAliasHitsDisagree(q, a, b);
    } else {
      var a :| a in NameHits(q) && Allows(q.cache[a], q.user);
      var c, d :| c in NameHits(q) && d in NameHits(q) && c != d;
      var first, second := TwoNameHitsDisagree(q, a, if c == a then d else c);
    }
  }

  // ---------------------------------------------------------------- lookups in a separate name space

  /** The cache loaded from the tables. */
  function CacheOf(db: Db): Cache {
    map key | key in db.models ::
        Visible(ParseAliases(db.models[key].alias), db.models[key].allUsers, db.models[key].users)
  }

  lemma SeparateHitsAreUnique(db: Db, q: Query)
    requires Separate(db) && q.cache == CacheOf(db) && !q.isOllama
    ensures AtMostOne(AliasHits(q)) && AtMostOne(NameHits(q))
  {
    forall a, b | a in AliasHits(q) && b in AliasHits(q) ensures a == b {
      if a != b {
        assert Has(db, a, q.requested) && Has(db, b, q.requested);
        var tenant := db.upstreams[a.0].tenant;
        assert InTenant(db, b, tenant);
        assert AliasUsed(db, tenant, Some(a), q.requested);
      }
    }
  }

  /** The set-based answer: the model that carries the name as an alias, else the model of that name, if
      the user may use it; the name itself if the upstream has no rules at all. */
  ghost predicate Answer(q: Query, r: Option<string>) {
    if !Supported(q) then r.None?
    else if AliasHits(q) != {} then
      exists key :: key in AliasHits(q) && r == if Allows(q.cache[key], q.user) then Some(key.1) else None
    else if NameHits(q) != {} then
      exists key :: key in NameHits(q) && r == if Allows(q.cache[key], q.user) then Some(q.requested) else None
    else r == if Rules(q) != {} then None else Some(q.requested)
  }

  /** For every database an administrator can reach and every non-Ollama upstream, the iteration order of
      the cache is irrelevant and the answer is the set-based one. */
  lemma ResolutionIsDeterministic(ops: seq<AdminOp>, q: Query, a: seq<ModelKey>, b: seq<ModelKey>)
    requires q.cache == CacheOf(RunAll(Db(map[], map[], []), ops)) && !q.isOllama
    requires Enumerates(q, a) && Enumerates(q, b)
    ensures ResolveIn(q, a) == ResolveIn(q, b) && Answer(q, ResolveIn(q, a))
  {
    var db := RunAll(Db(map[], map[], []), ops);
    NamespaceStaysSeparate(ops);
    SeparateHitsAreUnique(db, q);
    assert AllowedHits(q) <= AliasHits(q);
    DeterminedAgrees(q, a, b);
    UniqueHitsAnswer(q, a);
  }

  lemma UniqueHitsAnswer(q: Query, order: seq<ModelKey>)
    requires AtMostOne(AliasHits(q)) && AtMostOne(NameHits(q)) && !q.isOllama && Enumerates(q, order)
    ensures Answer(q, ResolveIn(q, order))
  {
    FirstInIsMember(order, AllowedHits(q));
    LastInIsMember(order, NameHits(q));
    if AliasHits(q) != {} {
      var key :| key in AliasHits(q);
      assert key in order;
      assert Allows(q.cache[key], q.user) <==> key in AllowedHits(q);
    } else if NameHits(q) != {} {
      var key :| key in NameHits(q);
      assert key in order && key.1 == q.requested;
      assert AllowedHits(q) <= AliasHits(q);
    }
  }

  /** An update that gives every user access to a model and no alias. */
  const OPEN := VisibilityInput(
    true, [], None, None, NotGiven, None, None, None, None, None, None, None)

  lemma OpenIsAccepted(db: Db, key: ModelKey)
    requires key.0 in db.upstreams
    ensures SetVisibility(db, key, OPEN) == Ok(db.(models := db.models[key := RowOf(db, key, OPEN)]))
    ensures ParseAliases(RowOf(db, key, OPEN).alias) == []
  {
    assert Split("", ',') == [""];
    assert [""][..0] == [];
    assert Cleaned([""]) == [];
  }

  /** Three administrator operations after which two models differ only in ":latest". */
  function LatestTwice(upstream: Id, tenant: Id): seq<AdminOp> {
    [AddUpstream(upstream, UpstreamRow(tenant, "ollama")), SetModel((upstream, "m"), OPEN),
     SetModel((upstream, "m:latest"), OPEN)]
  }

  lemma RunOfThree(db: Db, a: AdminOp, b: AdminOp, c: AdminOp)
    ensures RunAll(db, [a, b, c]) == Perform(Perform(Perform(db, a), b), c)
  {
    assert [a, b, c][..2] == [a, b] && [a, b][..1] == [a] && [a][..0] == [];
    assert RunAll(db, [a]) == Perform(db, a);
    assert RunAll(db, [a, b]) == Perform(Perform(db, a), b);
  }

  lemma OpenModel(db: Db, key: ModelKey)
    requires key.0 in db.upstreams && key !in db.models
    ensures var db' := Perform(db, SetModel(key, OPEN));
            && db'.upstreams == db.upstreams && CacheOf(db') == CacheOf(db)[key := Visible([], true, [])]
            && db'.models.Keys == db.models.Keys + {key}
  {
    OpenIsAccepted(db, key);
    CacheOfMore(db, key, RowOf(db, key, OPEN));
  }

  lemma CacheOfMore(db: Db, key: ModelKey, row: ModelRow)
    ensures CacheOf(db.(models := db.models[key := row])) ==
            CacheOf(db)[key := Visible(ParseAliases(row.alias), row.allUsers, row.users)]
  {
  }

  lemma LatestTwiceIsReached(upstream: Id, tenant: Id)
    ensures CacheOf(RunAll(Db(map[], map[], []), LatestTwice(upstream, tenant))) ==
            map[(upstream, "m") := Visible([], true, []), (upstream, "m:latest") := Visible([], true, [])]
  {
    var ops, db := LatestTwice(upstream, tenant), Db(map[], map[], []);
    RunOfThree(db, ops[0], ops[1], ops[2]);
    FirstUpstream(upstream, tenant);
    var one := Perform(db, ops[0]);
    OpenModel(one, (upstream, "m"));
    assert |"m"| != |"m:latest"|;
    OpenModel(Perform(one, ops[1]), (upstream, "m:latest"));
  }

  lemma FirstUpstream(upstream: Id, tenant: Id)
    ensures var db := Perform(Db(map[], map[], []), AddUpstream(upstream, UpstreamRow(tenant, "ollama")));
            upstream in db.upstreams && db.models == map[] && CacheOf(db) == map[]
  {
  }

  /** On an Ollama upstream two models that differ only in ":latest" make the answer depend on the order; the
      cache below is what three administrator operations lead to. */
  lemma OllamaDependsOnOrder(q: Query, tenant: Id) returns (first: seq<ModelKey>, second: seq<ModelKey>)
    requires q.isOllama && q.models == [] && q.requested == "m"
    requires q.cache == CacheOf(RunAll(Db(map[], map[], []), LatestTwice(q.upstream, tenant)))
    ensures Enumerates(q, first) && Enumerates(q, second) && ResolveIn(q, first) != ResolveIn(q, second)
  {
    LatestTwiceIsReached(q.upstream, tenant);
    first, second := TwoNamesOfOne(q);
  }

  lemma TwoNamesOfOne(q: Query) returns (first: seq<ModelKey>, second: seq<ModelKey>)
    requires q.isOllama && q.models == [] && q.requested == "m"
    requires q.cache ==
             map[(q.upstream, "m") := Visible([], true, []), (q.upstream, "m:latest") := Visible([], true, [])]
    ensures Enumerates(q, first) && Enumerates(q, second) && ResolveIn(q, first) != ResolveIn(q, second)
  {
    var a, b := (q.upstream, "m"), (q.upstream, "m:latest");
    assert |"m"| != |"m:latest"|;
    assert "m:latest" == "m" + LATEST;
    assert "m:latest"[..1] == "m" && "m:latest"[1..] == LATEST;
    assert WithoutLatest("m:latest") == "m" && WithoutLatest("m") == "m";
    assert AliasHits(q) == {};
    first, second := TwoNameHitsDisagree(q, a, b);
  }
}
