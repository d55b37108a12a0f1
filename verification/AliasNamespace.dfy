/** One name space for model aliases and smart routes, and what it means for resolving a requested model
    (src/db/model_visibility.rs; src/store/mod.rs, `resolve_requested_model`). */
module AliasNamespace {
  import opened Wrappers
  import opened Text
  import opened AliasText
  import opened AdminTables

  // ---------------------------------------------------------------- the invariant over all runs

  datatype AdminOp =
    | SetModel(key: ModelKey, visibility: VisibilityInput)
    | UpsertRoute(tenant: Id, name: string, route: RouteInput)
    | RemoveRoute(tenant: Id, name: string)
    | SetUsers(tenant: Id, name: string, allUsers: bool, userIds: seq<Id>)
    | AddUpstream(id: Id, row: UpstreamRow)
    | RemoveUpstream(id: Id)

  function Applied(db: Db, r: Result<Db, AdminError>): Db {
    if r.Ok? then r.value else db
  }

  /** A failed operation changes nothing; upstream ids are never reused; an upstream that is still
      referenced by a model or a route cannot be deleted. */
  function Perform(db: Db, op: AdminOp): Db {
    match op
    case SetModel(key, visibility) => Applied(db, SetVisibility(db, key, visibility))
    case UpsertRoute(tenant, name, route) => Applied(db, Upsert(db, tenant, name, route))
    case RemoveRoute(tenant, name) => Applied(db, DeleteRoute(db, tenant, name))
    case SetUsers(tenant, name, allUsers, userIds) => Applied(db, SetRouteUsers(db, tenant, name, allUsers, userIds))
    case AddUpstream(id, row) => WithUpstream(db, id, row)
    case RemoveUpstream(id) => WithoutUpstream(db, id)
  }

  function WithUpstream(db: Db, id: Id, row: UpstreamRow): Db {
    if id in db.upstreams then db else db.(upstreams := db.upstreams[id := row])
  }

  function WithoutUpstream(db: Db, id: Id): Db {
    if Referenced(db, id) then db else db.(upstreams := db.upstreams - {id})
  }

  /** The foreign keys on upstream ids. */
  predicate Referenced(db: Db, id: Id) {
    (exists key | key in db.models :: key.0 == id) || (exists i | 0 <= i < |db.routes| :: db.routes[i].upstream == id)
  }

  function RunAll(db: Db, ops: seq<AdminOp>): Db {
    if ops == [] then db else Perform(RunAll(db, ops[..|ops| - 1]), ops[|ops| - 1])
  }

  ghost predicate Has(db: Db, key: ModelKey, name: string) {
    key in db.models && key.0 in db.upstreams && name in ParseAliases(db.models[key].alias)
  }

  ghost predicate NoOrphans(db: Db) {
    forall key :: key in db.models ==> key.0 in db.upstreams
  }

  /** Within a tenant, a model alias is no other model's alias and no smart route's name. */
  ghost predicate Separate(db: Db) {
    && NoOrphans(db)
    && forall key, name :: Has(db, key, name) ==>
         var tenant := db.upstreams[key.0].tenant;
         !AliasUsed(db, tenant, Some(key), name) && !RouteNamed(db, tenant, name)
  }

  lemma SetModelKeepsSeparate(db: Db, key: ModelKey, input: VisibilityInput)
    requires Separate(db)
    ensures Separate(Applied(db, SetVisibility(db, key, input)))
  {
    var r := SetVisibility(db, key, input);
    if r.Ok? {
      var names := Normalized(input.modelAliases, input.modelAlias);
      AliasesRoundTrip(input.modelAliases, input.modelAlias);
      SetVisibilityAcceptsIff(db, key, input);
      forall k, name | Has(r.value, k, name)
        ensures !AliasUsed(r.value, db.upstreams[k.0].tenant, Some(k), name)
                && !RouteNamed(r.value, db.upstreams[k.0].tenant, name)
      {
        NewAliasesDoNotClash(db, key, names, r.value, k, name);
      }
    }
  }

  lemma NewAliasesDoNotClash(db: Db, key: ModelKey, names: seq<string>, db': Db, k: ModelKey, name: string)
    requires Separate(db) && key.0 in db.upstreams
    requires forall n :: n in names ==>
               !RouteNamed(db, db.upstreams[key.0].tenant, n)
                   && !AliasUsed(db, db.upstreams[key.0].tenant, Some(key), n)
    requires db'.upstreams == db.upstreams && db'.routes == db.routes
    requires key in db'.models && ParseAliases(db'.models[key].alias) == names
             && db'.models == db.models[key := db'.models[key]]
    requires Has(db', k, name)
    ensures !AliasUsed(db', db.upstreams[k.0].tenant, Some(k), name) && !RouteNamed(db', db.upstreams[k.0].tenant, name)
  {
    var tenant := db.upstreams[k.0].tenant;
    if k == key {
      assert !AliasUsed(db, tenant, Some(key), name);
    } else {
      assert Has(db, k, name);
      assert InTenant(db, k, tenant);
      assert AliasUsed(db, tenant, Some(key), name);
    }
  }

  /** Rows that were kept, and nothing else, survive a deletion by name. */
  lemma {:induction false} WithoutKeeps(rows: seq<RouteRow>, tenant: Id, alias: string)
    ensures forall row :: row in Without(rows, tenant, alias) <==> row in rows && !Belongs(row, tenant, alias)
  {
    if rows == [] {
    } else {
      WithoutKeeps(rows[..|rows| - 1], tenant, alias);
      SplitLast(rows);
    }
  }

  /** Changing the routes keeps the name space if every active name was there before or is free. */
  lemma RoutesKeepSeparate(db: Db, routes: seq<RouteRow>)
    requires Separate(db)
    requires forall row :: row in routes && row.status == "active" ==>
               RouteNamed(db, row.tenant, row.alias) || !AliasUsed(db, row.tenant, None, row.alias)
    ensures Separate(db.(routes := routes))
  {
    var db' := db.(routes := routes);
    forall key, name | Has(db', key, name)
      ensures !AliasUsed(db', db.upstreams[key.0].tenant, Some(key), name)
              && !RouteNamed(db', db.upstreams[key.0].tenant, name)
    {
      RouteNameIsFree(db, routes, key, name);
    }
  }

  lemma RouteNameIsFree(db: Db, routes: seq<RouteRow>, key: ModelKey, name: string)
    requires Separate(db) && Has(db, key, name)
    requires forall row :: row in routes && row.status == "active" ==>
               RouteNamed(db, row.tenant, row.alias) || !AliasUsed(db, row.tenant, None, row.alias)
    ensures var tenant, db' := db.upstreams[key.0].tenant, db.(routes := routes);
            !AliasUsed(db', tenant, Some(key), name) && !RouteNamed(db', tenant, name)
  {
    var tenant := db.upstreams[key.0].tenant;
    assert !AliasUsed(db, tenant, Some(key), name);
    assert AliasUsed(db, tenant, None, name) by {
      assert InTenant(db, key, tenant);
    }
    forall i | 0 <= i < |routes| && routes[i].tenant == tenant && routes[i].status == "active"
      ensures routes[i].alias != name
    {
      assert routes[i] in routes;
    }
  }

  lemma UpsertKeepsSeparate(db: Db, tenant: Id, name: string, input: RouteInput)
    requires Separate(db)
    ensures Separate(Applied(db, Upsert(db, tenant, name, input)))
  {
    var r := Upsert(db, tenant, name, input);
    if r.Ok? {
      var alias := Trim(name);
      WithoutKeeps(db.routes, tenant, alias);
      forall row | row in r.value.routes && row.status == "active"
        ensures RouteNamed(db, row.tenant, row.alias) || !AliasUsed(db, row.tenant, None, row.alias)
      {
        if row !in Without(db.routes, tenant, alias) {
          assert row.tenant == tenant && row.alias == alias;
        }
      }
      RoutesKeepSeparate(db, r.value.routes);
    }
  }

  lemma OtherRouteOpsKeepSeparate(db: Db, tenant: Id, name: string, allUsers: bool, userIds: seq<Id>)
    requires Separate(db)
    ensures Separate(Applied(db, DeleteRoute(db, tenant, name)))
    ensures Separate(Applied(db, SetRouteUsers(db, tenant, name, allUsers, userIds)))
  {
    WithoutKeeps(db.routes, tenant, Trim(name));
    RoutesKeepSeparate(db, Applied(db, DeleteRoute(db, tenant, name)).routes);
    var r := SetRouteUsers(db, tenant, name, allUsers, userIds);
    if r.Ok? {
      forall row | row in r.value.routes && row.status == "active" ensures RouteNamed(db, row.tenant, row.alias) {
        var i :| 0 <= i < |r.value.routes| && r.value.routes[i] == row;
        assert db.routes[i].tenant == row.tenant && db.routes[i].alias == row.alias && db.routes[i].status == "active";
      }
      RoutesKeepSeparate(db, r.value.routes);
    }
  }

  lemma AddUpstreamKeepsSeparate(db: Db, id: Id, row: UpstreamRow)
    requires Separate(db)
    ensures Separate(WithUpstream(db, id, row))
  {
    var db' := WithUpstream(db, id, row);
    forall key, name | Has(db', key, name)
      ensures !AliasUsed(db', db'.upstreams[key.0].tenant, Some(key), name)
              && !RouteNamed(db', db'.upstreams[key.0].tenant, name)
    {
      assert Has(db, key, name);
      assert id !in db.upstreams ==> forall k :: k in db.models ==> k.0 in db.upstreams && k.0 != id;
      assert !AliasUsed(db, db.upstreams[key.0].tenant, Some(key), name);
    }
  }

  lemma RemoveUpstreamKeepsSeparate(db: Db, id: Id)
    requires Separate(db)
    ensures Separate(WithoutUpstream(db, id))
  {
    var db' := WithoutUpstream(db, id);
    forall key, name | Has(db', key, name)
      ensures !AliasUsed(db', db'.upstreams[key.0].tenant, Some(key), name)
              && !RouteNamed(db', db'.upstreams[key.0].tenant, name)
    {
      assert Has(db, key, name);
      assert !AliasUsed(db, db.upstreams[key.0].tenant, Some(key), name);
    }
  }

  lemma OneOpKeepsSeparate(db: Db, op: AdminOp)
    requires Separate(db)
    ensures Separate(Perform(db, op))
  {
    match op
    case SetModel(key, visibility) => SetModelKeepsSeparate(db, key, visibility);
    case UpsertRoute(tenant, name, route) => UpsertKeepsSeparate(db, tenant, name, route);
    case RemoveRoute(tenant, name) => OtherRouteOpsKeepSeparate(db, tenant, name, true, []);
    case SetUsers(tenant, name, allUsers, userIds) => OtherRouteOpsKeepSeparate(db, tenant, name, allUsers, userIds);
    case AddUpstream(id, row) => AddUpstreamKeepsSeparate(db, id, row);
    case RemoveUpstream(id) => RemoveUpstreamKeepsSeparate(db, id);
  }

  /** Every sequential run of administrator operations on an empty database keeps the name space separate. */
  lemma {:induction false} NamespaceStaysSeparate(ops: seq<AdminOp>)
    ensures Separate(RunAll(Db(map[], map[], []), ops))
  {
    if ops == [] {
    } else {
      NamespaceStaysSeparate(ops[..|ops| - 1]);
      OneOpKeepsSeparate(RunAll(Db(map[], map[], []), ops[..|ops| - 1]), ops[|ops| - 1]);
    }
  }
}
