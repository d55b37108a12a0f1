/** The tables behind model visibility and smart routes, and the administrator's operations on them
    (src/db/model_visibility.rs). */
module AdminTables {
  import opened Wrappers
  import opened Text
  import opened AliasText
  import Json
  import ToolCalls

  type Id = nat

  type ModelKey = (Id, string)

  datatype UpstreamRow = UpstreamRow(tenant: Id, apiType: string)

  datatype RetrySettings = RetrySettings(
    count: int, interval: int, strategy: string, maxInterval: int,
    failureStrategy: string, fallbackUpstream: Option<Id>, fallbackModel: Option<string>)

  datatype ModelRow = ModelRow(
    alias: Option<string>, headers: Json.Value, allUsers: bool, users: seq<Id>, retry: RetrySettings)

  datatype RouteRow = RouteRow(
    tenant: Id, alias: string, priority: int, upstream: Id, model: string,
    minTokens: Option<int>, maxTokens: Option<int>, keywords: Option<string>, hasImage: bool,
    start: Option<string>, end: Option<string>,
    isFallback: bool, allUsers: bool, userIds: Option<seq<Id>>, status: string)

  datatype Db = Db(upstreams: map<Id, UpstreamRow>, models: map<ModelKey, ModelRow>, routes: seq<RouteRow>)

  datatype AdminError =
    | NotFound
    | BadHeaders
    | AliasNamesARoute(alias: string)
    | AliasExists(alias: string)
    | EmptyName
    | NoUsers
    | RouteNamesAnAlias(alias: string)
    | EmptyModel
    | BadTokenRange
    | NoCondition
    | BadTimeRange
    | EmptyFallbackModel
    | UnknownUpstream(id: Id)
    | MixedApiTypes

  predicate InTenant(db: Db, key: ModelKey, tenant: Id) {
    key.0 in db.upstreams && db.upstreams[key.0].tenant == tenant
  }

  /** Is the name an alias of some model of the tenant, other than the one given? */
  predicate AliasUsed(db: Db, tenant: Id, except: Option<ModelKey>, name: string) {
    exists key | key in db.models ::
      Some(key) != except && InTenant(db, key, tenant) && name in ParseAliases(db.models[key].alias)
  }

  predicate RouteNamed(db: Db, tenant: Id, name: string) {
    exists i | 0 <= i < |db.routes| ::
      db.routes[i].tenant == tenant && db.routes[i].status == "active" && db.routes[i].alias == name
  }

  // ---------------------------------------------------------------- model visibility

  /** The headers of a request: none given, given (with normalised names), or given and not an object. */
  datatype HeaderInput = NotGiven | Given(headers: Json.Value) | NotAnObject

  datatype VisibilityInput = VisibilityInput(
    allUsers: bool, userIds: seq<Id>, modelAlias: Option<string>, modelAliases: Option<seq<string>>,
    headers: HeaderInput,
    retryCount: Option<int>, retryInterval: Option<int>, retryStrategy: Option<string>, retryMaxInterval: Option<int>,
    failureStrategy: Option<string>, fallbackUpstream: Option<Id>, fallbackModel: Option<string>)

  function AliasError(db: Db, tenant: Id, key: ModelKey, name: string): Option<AdminError> {
    if RouteNamed(db, tenant, name) then Some(AliasNamesARoute(name))
    else if AliasUsed(db, tenant, Some(key), name) then Some(AliasExists(name))
    else None
  }

  function FirstAliasError(db: Db, tenant: Id, key: ModelKey, names: seq<string>): Option<AdminError> {
    if names == [] then None
    else
      var before := FirstAliasError(db, tenant, key, names[..|names| - 1]);
      if before.Some? then before else AliasError(db, tenant, key, names[|names| - 1])
  }

  /** Headers that are not given stay what they are; a new row starts without any. */
  function HeadersOf(db: Db, key: ModelKey, input: HeaderInput): Json.Value {
    if input.Given? then input.headers
    else if key in db.models then db.models[key].headers
    else Json.Obj(map[])
  }

  /** Retry settings that are not given go back to their defaults. */
  function RetryOf(input: VisibilityInput): RetrySettings {
    RetrySettings(
      input.retryCount.GetOr(0), input.retryInterval.GetOr(0), input.retryStrategy.GetOr("fixed"),
      input.retryMaxInterval.GetOr(0), input.failureStrategy.GetOr("error"), input.fallbackUpstream,
          input.fallbackModel)
  }

  function RowOf(db: Db, key: ModelKey, input: VisibilityInput): ModelRow {
    ModelRow(Stored(Normalized(input.modelAliases, input.modelAlias)), HeadersOf(db, key, input.headers),
             input.allUsers, if input.allUsers then [] else input.userIds, RetryOf(input))
  }

  function SetVisibility(db: Db, key: ModelKey, input: VisibilityInput): Result<Db, AdminError> {
    if key.0 !in db.upstreams then Err(NotFound)
    else
      var names := Normalized(input.modelAliases, input.modelAlias);
      var error := FirstAliasError(db, db.upstreams[key.0].tenant, key, names);
      if error.Some? then Err(error.value)
      else if input.headers.NotAnObject? then Err(BadHeaders)
      else Ok(db.(models := db.models[key := RowOf(db, key, input)]))
  }

  // ---------------------------------------------------------------- smart routes

  datatype RuleInput = RuleInput(
    upstream: Id, model: string, minTokens: Option<int>, maxTokens: Option<int>,
    keywords: Option<seq<string>>, hasImage: bool, start: Option<string>, end: Option<string>)

  datatype RouteInput = RouteInput(rules: seq<RuleInput>, fallbackUpstream: Id, fallbackModel: string, allUsers: bool,
                                   userIds: seq<Id>)

  /** Texts compare character by character. */
  predicate AtMost(a: string, b: string) {
    a == "" || (b != "" && (a[0] < b[0] || (a[0] == b[0] && AtMost(a[1..], b[1..]))))
  }

  function RuleError(r: RuleInput): Option<AdminError> {
    if Trim(r.model) == "" then Some(EmptyModel)
    else if r.minTokens.Some? && r.maxTokens.Some? && r.minTokens.value > r.maxTokens.value then Some(BadTokenRange)
    else if r.minTokens.None? && r.maxTokens.None? && NormalizedKeywords(r.keywords) == []
            && !r.hasImage && r.start.None? && r.end.None? then Some(NoCondition)
    else if r.start.Some? && r.end.Some? && AtMost(r.end.value, r.start.value) then Some(BadTimeRange)
    else None
  }

  function FirstRuleError(rules: seq<RuleInput>): Option<AdminError> {
    if rules == [] then None
    else
      var before := FirstRuleError(rules[..|rules| - 1]);
      if before.Some? then before else RuleError(rules[|rules| - 1])
  }

  function Targets(input: RouteInput): seq<Id> {
    seq(|input.rules|, i requires 0 <= i < |input.rules| => input.rules[i].upstream) + [input.fallbackUpstream]
  }

  predicate IsAnthropic(db: Db, id: Id) {
    id in db.upstreams && LowerAscii(db.upstreams[id].apiType) == "anthropic"
  }

  function FirstUnknown(db: Db, targets: seq<Id>): Option<Id> {
    if targets == [] then None
    else
      var before := FirstUnknown(db, targets[..|targets| - 1]);
      if before.Some? then before
      else if targets[|targets| - 1] !in db.upstreams then Some(targets[|targets| - 1]) else None
  }

  /** All targets exist, and Anthropic upstreams are not mixed with others. */
  function TargetError(db: Db, targets: seq<Id>): Option<AdminError> {
    var unknown := FirstUnknown(db, targets);
    if unknown.Some? then Some(UnknownUpstream(unknown.value))
    else if (exists i | 0 <= i < |targets| :: IsAnthropic(db, targets[i]))
            && (exists i | 0 <= i < |targets| :: !IsAnthropic(db, targets[i])) then Some(MixedApiTypes)
    else None
  }

  function RouteError(db: Db, tenant: Id, alias: string, input: RouteInput): Option<AdminError> {
    if alias == "" then Some(EmptyName)
    else if AliasUsed(db, tenant, None, alias) then Some(RouteNamesAnAlias(alias))
    else
      var ruleError := FirstRuleError(input.rules);
      if ruleError.Some? then ruleError
      else if Trim(input.fallbackModel) == "" then Some(EmptyFallbackModel)
      else TargetError(db, Targets(input))
  }

  function NonBlank(s: Option<string>): Option<string> {
    if s == Some("") then None else s
  }

  /** The user list as it is stored: absent when everyone may see the route, else sorted and distinct. */
  function UserColumn(input: RouteInput): Option<seq<Id>> {
    if input.allUsers then None
    else Some(ToolCalls.SortedKeys(set i | 0 <= i < |input.userIds| :: input.userIds[i]))
  }

  function RuleRow(tenant: Id, alias: string, input: RouteInput, i: nat): RouteRow
    requires i < |input.rules|
  {
    var r := input.rules[i];
    RouteRow(tenant, alias, i + 1, r.upstream, Trim(r.model), r.minTokens, r.maxTokens,
             Stored(NormalizedKeywords(r.keywords)), r.hasImage, NonBlank(r.start), NonBlank(r.end),
             false, input.allUsers, UserColumn(input), "active")
  }

  function FallbackRow(tenant: Id, alias: string, input: RouteInput): RouteRow {
    RouteRow(tenant, alias, |input.rules| + 1, input.fallbackUpstream, Trim(input.fallbackModel), None, None,
             None, false, None, None, true, input.allUsers, UserColumn(input), "active")
  }

  function RuleRows(tenant: Id, alias: string, input: RouteInput): seq<RouteRow> {
    seq(|input.rules|, i requires 0 <= i < |input.rules| => RuleRow(tenant, alias, input, i))
  }

  predicate Belongs(row: RouteRow, tenant: Id, alias: string) {
    row.tenant == tenant && row.alias == alias
  }

  function Without(rows: seq<RouteRow>, tenant: Id, alias: string): seq<RouteRow> {
    if rows == [] then []
    else
      var last := rows[|rows| - 1];
      Without(rows[..|rows| - 1], tenant, alias) + if Belongs(last, tenant, alias) then [] else [last]
  }

  function Upsert(db: Db, tenant: Id, name: string, input: RouteInput): Result<Db, AdminError> {
    var alias := Trim(name);
    var error := RouteError(db, tenant, alias, input);
    if error.Some? then Err(error.value)
    else Ok(db.(routes :=
        Without(db.routes, tenant, alias) + RuleRows(tenant, alias, input) + [FallbackRow(tenant, alias, input)]))
  }

  function DeleteRoute(db: Db, tenant: Id, name: string): Result<Db, AdminError> {
    var alias := Trim(name);
    if alias == "" then Err(EmptyName)
    else if !exists i | 0 <= i < |db.routes| :: Belongs(db.routes[i], tenant, alias) then Err(NotFound)
    else Ok(db.(routes := Without(db.routes, tenant, alias)))
  }

  function SetRouteUsers(db: Db, tenant: Id, name: string, allUsers: bool, userIds: seq<Id>): Result<Db, AdminError> {
    var alias := Trim(name);
    var users := ToolCalls.SortedKeys(set i | 0 <= i < |userIds| :: userIds[i]);
    if alias == "" then Err(EmptyName)
    else if !allUsers && users == [] then Err(NoUsers)
    else if !exists i | 0 <= i < |db.routes| :: Belongs(db.routes[i], tenant, alias) then Err(NotFound)
    else Ok(db.(routes := seq(|db.routes|, i requires 0 <= i < |db.routes| =>
      if Belongs(db.routes[i], tenant, alias)
      then db.routes[i].(allUsers := allUsers, userIds := if allUsers then None else Some(users)) else db.routes[i])))
  }

  // ---------------------------------------------------------------- the operations on the database

  class AdminDatabase {
    var upstreams: map<Id, UpstreamRow>
    var models: map<ModelKey, ModelRow>
    var routes: seq<RouteRow>

    ghost function Tables(): Db
      reads this
    {
      Db(upstreams, models, routes)
    }

    constructor ()
      ensures Tables() == Db(map[], map[], [])
    {
      upstreams, models, routes := map[], map[], [];
    }

    method SetModelVisibility(key: ModelKey, input: VisibilityInput) returns (error: Option<AdminError>)
      modifies this`models
      ensures error.None? <==> SetVisibility(old(Tables()), key, input).Ok?
      ensures error.None? ==> Tables() == SetVisibility(old(Tables()), key, input).value
      ensures error.Some? ==> Tables() == old(Tables()) && error.value == SetVisibility(old(Tables()), key, input).error
    {
      if key.0 !in upstreams {
        return Some(NotFound);
      }
      var db := Db(upstreams, models, routes);
      var tenant := upstreams[key.0].tenant;
      var names := NormalizeAliases(input.modelAliases, input.modelAlias);
      error := CheckAliases(db, tenant, key, names);
      if error.Some? {
        return;
      }
      if input.headers.NotAnObject? {
        return Some(BadHeaders);
      }
      var headers := if input.headers.Given? then input.headers.headers
                     else if key in models then models[key].headers
                     else Json.Obj(map[]);
      var users := if input.allUsers then [] else input.userIds;
      models := models[key := ModelRow(Stored(names), headers, input.allUsers, users, RetryOf(input))];
      return None;
    }

    method UpsertConditionalAlias(tenant: Id, name: string, input: RouteInput) returns (error: Option<AdminError>)
      modifies this`routes
      ensures error.None? <==> Upsert(old(Tables()), tenant, name, input).Ok?
      ensures error.None? ==> Tables() == Upsert(old(Tables()), tenant, name, input).value
      ensures error.Some? ==>
              Tables() == old(Tables()) && error.value == Upsert(old(Tables()), tenant, name, input).error
    {
      var db := Db(upstreams, models, routes);
      var alias := Trim(name);
      error := ValidateRoute(db, tenant, alias, input);
      if error.Some? {
        return;
      }
      var kept := Without(routes, tenant, alias);
      var inserted := InsertRules(tenant, alias, input);
      routes := kept + inserted + [FallbackRow(tenant, alias, input)];
    }
  }

  lemma {:induction false} FirstAliasErrorStays(db: Db, tenant: Id, key: ModelKey, names: seq<string>, i: nat)
    requires i <= |names| && FirstAliasError(db, tenant, key, names[..i]).Some?
    ensures FirstAliasError(db, tenant, key, names) == FirstAliasError(db, tenant, key, names[..i])
    decreases |names|
  {
    if i < |names| {
      assert names[..|names| - 1][..i] == names[..i];
      FirstAliasErrorStays(db, tenant, key, names[..|names| - 1], i);
    } else {
      assert names[..i] == names;
    }
  }

  lemma {:induction false} FirstRuleErrorStays(rules: seq<RuleInput>, i: nat)
    requires i <= |rules| && FirstRuleError(rules[..i]).Some?
    ensures FirstRuleError(rules) == FirstRuleError(rules[..i])
    decreases |rules|
  {
    if i < |rules| {
      assert rules[..|rules| - 1][..i] == rules[..i];
      FirstRuleErrorStays(rules[..|rules| - 1], i);
    } else {
      assert rules[..i] == rules;
    }
  }

  /** The loop over the normalised aliases: the first one that is taken decides. */
  method CheckAliases(db: Db, tenant: Id, key: ModelKey, names: seq<string>) returns (error: Option<AdminError>)
    ensures error == FirstAliasError(db, tenant, key, names)
  {
    for i := 0 to |names|
      invariant FirstAliasError(db, tenant, key, names[..i]).None?
    {
      assert names[..i + 1][..i] == names[..i];
      if RouteNamed(db, tenant, names[i]) {
        FirstAliasErrorStays(db, tenant, key, names, i + 1);
        return Some(AliasNamesARoute(names[i]));
      }
      if AliasUsed(db, tenant, Some(key), names[i]) {
        FirstAliasErrorStays(db, tenant, key, names, i + 1);
        return Some(AliasExists(names[i]));
      }
    }
    assert names[..|names|] == names;
    error := None;
  }

  /** The loop that inserts one row per rule, with priorities from 1. */
  method InsertRules(tenant: Id, alias: string, input: RouteInput) returns (inserted: seq<RouteRow>)
    ensures inserted == RuleRows(tenant, alias, input)
  {
    inserted := [];
    for i := 0 to |input.rules|
      invariant inserted == RuleRows(tenant, alias, input)[..i]
    {
      inserted := inserted + [RuleRow(tenant, alias, input, i)];
    }
  }

  method ValidateRoute(db: Db, tenant: Id, alias: string, input: RouteInput) returns (error: Option<AdminError>)
    ensures error == RouteError(db, tenant, alias, input)
  {
    if alias == "" {
      return Some(EmptyName);
    }
    if AliasUsed(db, tenant, None, alias) {
      return Some(RouteNamesAnAlias(alias));
    }
    for i := 0 to |input.rules|
      invariant FirstRuleError(input.rules[..i]).None?
    {
      assert input.rules[..i + 1][..i] == input.rules[..i];
      error := RuleError(input.rules[i]);
      if error.Some? {
        FirstRuleErrorStays(input.rules, i + 1);
        return;
      }
    }
    assert input.rules[..|input.rules|] == input.rules;
    if Trim(input.fallbackModel) == "" {
      return Some(EmptyFallbackModel);
    }
    error := TargetError(db, Targets(input));
  }

  // ---------------------------------------------------------------- what is accepted

  lemma {:induction false} FirstRuleErrorIff(rules: seq<RuleInput>)
    ensures FirstRuleError(rules).None? <==> forall i :: 0 <= i < |rules| ==> RuleError(rules[i]).None?
  {
    if rules == [] {
    } else {
      FirstRuleErrorIff(rules[..|rules| - 1]);
      SplitLast(rules);
    }
  }

  lemma {:induction false} FirstUnknownIff(db: Db, targets: seq<Id>)
    ensures FirstUnknown(db, targets).None? <==> forall i :: 0 <= i < |targets| ==> targets[i] in db.upstreams
  {
    if targets == [] {
    } else {
      FirstUnknownIff(db, targets[..|targets| - 1]);
      SplitLast(targets);
    }
  }

  lemma {:induction false} FirstAliasErrorIff(db: Db, tenant: Id, key: ModelKey, names: seq<string>)
    ensures FirstAliasError(db, tenant, key, names).None? <==>
            forall i ::
                0 <= i < |names| ==> !RouteNamed(db, tenant, names[i]) && !AliasUsed(db, tenant, Some(key), names[i])
  {
    if names == [] {
    } else {
      FirstAliasErrorIff(db, tenant, key, names[..|names| - 1]);
      SplitLast(names);
    }
  }

  /** All targets exist, and either all or none of them are Anthropic upstreams. */
  ghost predicate OneFamily(db: Db, targets: seq<Id>) {
    && (forall i :: 0 <= i < |targets| ==> targets[i] in db.upstreams)
    && (forall i, j ::
        0 <= i < |targets| && 0 <= j < |targets| ==> IsAnthropic(db, targets[i]) == IsAnthropic(db, targets[j]))
  }

  /** When a smart route is saved: exactly when its trimmed name is not empty and no model alias of the
      tenant, every rule is sound, the fallback names a model, and all targets are of one API family. */
  lemma UpsertAcceptsIff(db: Db, tenant: Id, name: string, input: RouteInput)
    ensures Upsert(db, tenant, name, input).Ok? <==>
            && Trim(name) != "" && !AliasUsed(db, tenant, None, Trim(name))
            && (forall i :: 0 <= i < |input.rules| ==> RuleError(input.rules[i]).None?)
            && Trim(input.fallbackModel) != ""
            && OneFamily(db, Targets(input))
  {
    FirstRuleErrorIff(input.rules);
    FirstUnknownIff(db, Targets(input));
  }

  /** When a model's visibility is saved: exactly when the upstream exists, the headers are an object and
      no normalised alias names a smart route or another model of the tenant. */
  lemma SetVisibilityAcceptsIff(db: Db, key: ModelKey, input: VisibilityInput)
    ensures SetVisibility(db, key, input).Ok? <==>
            && key.0 in db.upstreams && !input.headers.NotAnObject?
            && forall name :: name in Normalized(input.modelAliases, input.modelAlias) ==>
                 var tenant := db.upstreams[key.0].tenant;
                 !RouteNamed(db, tenant, name) && !AliasUsed(db, tenant, Some(key), name)
  {
    if key.0 in db.upstreams {
      var names := Normalized(input.modelAliases, input.modelAlias);
      FirstAliasErrorIff(db, db.upstreams[key.0].tenant, key, names);
      assert forall i :: 0 <= i < |names| ==> names[i] in names;
    }
  }
}
