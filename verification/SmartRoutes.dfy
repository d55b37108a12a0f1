/** Smart routes read back and applied (src/db/model_visibility.rs, `list_conditional_aliases`;
    src/store/mod.rs, `resolve_conditional_alias_routes`). */
module SmartRoutes {
  import opened Wrappers
  import opened Text
  import opened AliasText
  import opened AdminTables

  // ---------------------------------------------------------------- reading ordered rows

  predicate Active(row: RouteRow, tenant: Id) {
    row.tenant == tenant && row.status == "active"
  }

  function Only(rows: seq<RouteRow>, tenant: Id, alias: string): seq<RouteRow> {
    if rows == [] then []
    else
      var last := rows[|rows| - 1];
      Only(rows[..|rows| - 1], tenant, alias) + if Active(last, tenant) && last.alias == alias then [last] else []
  }

  /** A result of the ordered query: the tenant's active rows, and those of one alias by priority. Rows of
      equal priority, and rows of different aliases, may come in any order. */
  ghost predicate QueryResult(result: seq<RouteRow>, table: seq<RouteRow>, tenant: Id) {
    && (forall alias :: multiset(Only(result, tenant, alias)) == multiset(Only(table, tenant, alias)))
    && (forall i :: 0 <= i < |result| ==> Active(result[i], tenant))
    && (forall i, j ::
        0 <= i < j < |result| && result[i].alias == result[j].alias ==> result[i].priority <= result[j].priority)
  }

  ghost predicate ByPriority(rows: seq<RouteRow>) {
    Ascending(PriorityOf, rows)
  }

  function PriorityOf(row: RouteRow): int {
    row.priority
  }

  ghost predicate Ascending<T>(key: T -> int, xs: seq<T>) {
    forall i, j :: 0 <= i < j < |xs| ==> key(xs[i]) <= key(xs[j])
  }

  ghost predicate StrictlyAscending<T>(key: T -> int, xs: seq<T>) {
    forall i, j :: 0 <= i < j < |xs| ==> key(xs[i]) < key(xs[j])
  }

  lemma {:induction false} OnlyConcat(a: seq<RouteRow>, b: seq<RouteRow>, tenant: Id, alias: string)
    ensures Only(a + b, tenant, alias) == Only(a, tenant, alias) + Only(b, tenant, alias)
  {
    if b == [] {
      assert a + b == a;
    } else {
      assert (a + b)[..|a + b| - 1] == a + b[..|b| - 1];
      OnlyConcat(a, b[..|b| - 1], tenant, alias);
    }
  }

  lemma {:induction false} OnlyWithout(rows: seq<RouteRow>, tenant: Id, alias: string, other: string)
    ensures Only(Without(rows, tenant, alias), tenant, other) ==
            if other == alias then [] else Only(rows, tenant, other)
  {
    if rows == [] {
    } else {
      var init, last := rows[..|rows| - 1], rows[|rows| - 1];
      OnlyWithout(init, tenant, alias, other);
      if Belongs(last, tenant, alias) {
        assert Without(init, tenant, alias) + [] == Without(init, tenant, alias);
        assert Only(init, tenant, other) + [] == Only(init, tenant, other);
      } else {
        OnlyConcat(Without(init, tenant, alias), [last], tenant, other);
        assert [last][..0] == [];
      }
    }
  }

  lemma {:induction false} OnlyAll(rows: seq<RouteRow>, tenant: Id, alias: string)
    requires forall i :: 0 <= i < |rows| ==> Active(rows[i], tenant) && rows[i].alias == alias
    ensures Only(rows, tenant, alias) == rows
  {
    if rows == [] {
    } else {
      OnlyAll(rows[..|rows| - 1], tenant, alias);
    }
  }

  lemma {:induction false} OnlyKeepsPriority(rows: seq<RouteRow>, tenant: Id, alias: string)
    requires forall i, j ::
             0 <= i < j < |rows| && rows[i].alias == rows[j].alias ==> rows[i].priority <= rows[j].priority
    ensures ByPriority(Only(rows, tenant, alias))
    ensures forall row :: row in Only(rows, tenant, alias) ==> row in rows && row.alias == alias
  {
    if rows == [] {
    } else {
      var init, last := rows[..|rows| - 1], rows[|rows| - 1];
      OnlyKeepsPriority(init, tenant, alias);
      SplitLast(rows);
      forall row | row in Only(init, tenant, alias) && last.alias == alias ensures row.priority <= last.priority {
        var i :| 0 <= i < |init| && init[i] == row;
        assert rows[i] == row;
      }
      assert forall i ::
             0 <= i < |Only(init, tenant, alias)| ==> Only(init, tenant, alias)[i] in Only(init, tenant, alias);
    }
  }

  lemma SameLeast<T>(key: T -> int, a: seq<T>, b: seq<T>)
    requires multiset(a) == multiset(b) && b != [] && Ascending(key, a) && StrictlyAscending(key, b)
    ensures |a| == |b| && a[0] == b[0]
  {
    assert |a| == |multiset(a)| == |multiset(b)| == |b|;
    assert a[0] in multiset(b) && b[0] in multiset(a);
  }

  lemma SameRest<T>(a: seq<T>, b: seq<T>)
    requires multiset(a) == multiset(b) && a != [] && b != [] && a[0] == b[0]
    ensures multiset(a[1..]) == multiset(b[1..])
  {
    assert a == [a[0]] + a[1..] && b == [b[0]] + b[1..];
    assert multiset(a[1..]) == multiset(a) - multiset{a[0]};
    assert multiset(b[1..]) == multiset(b) - multiset{b[0]};
  }

  /** Distinct keys leave one way to order a collection. */
  lemma {:induction false} OrderIsUnique<T>(key: T -> int, a: seq<T>, b: seq<T>)
    requires multiset(a) == multiset(b) && Ascending(key, a) && StrictlyAscending(key, b)
    ensures a == b
  {
    if b == [] {
      assert |a| == |multiset(a)| == |multiset(b)| == 0;
    } else {
      SameLeast(key, a, b);
      SameRest(a, b);
      OrderIsUnique(key, a[1..], b[1..]);
      assert a == [a[0]] + a[1..] && b == [b[0]] + b[1..];
    }
  }

  /** The rows an upsert writes for one alias. */
  function SavedRows(tenant: Id, alias: string, input: RouteInput): seq<RouteRow> {
    RuleRows(tenant, alias, input) + [FallbackRow(tenant, alias, input)]
  }

  lemma SavedRowsInOrder(tenant: Id, alias: string, input: RouteInput)
    ensures var saved := SavedRows(tenant, alias, input);
            && StrictlyAscending(PriorityOf, saved)
            && forall i :: 0 <= i < |saved| ==> Active(saved[i], tenant) && saved[i].alias == alias
  {
    var saved := SavedRows(tenant, alias, input);
    forall i | 0 <= i < |saved|
      ensures PriorityOf(saved[i]) == i + 1 && Active(saved[i], tenant) && saved[i].alias == alias
    {
    }
  }

  lemma TableAfterUpsert(rows: seq<RouteRow>, tenant: Id, alias: string, input: RouteInput)
    ensures Only(Without(rows, tenant, alias) + SavedRows(tenant, alias, input), tenant, alias) ==
            SavedRows(tenant, alias, input)
  {
    var saved := SavedRows(tenant, alias, input);
    OnlyConcat(Without(rows, tenant, alias), saved, tenant, alias);
    OnlyWithout(rows, tenant, alias, alias);
    SavedRowsInOrder(tenant, alias, input);
    OnlyAll(saved, tenant, alias);
    assert [] + saved == saved;
  }

  /** After an upsert every ordered query returns, for that alias, exactly the saved rows in input order. */
  lemma QueryAfterUpsert(db: Db, tenant: Id, name: string, input: RouteInput, result: seq<RouteRow>)
    requires Upsert(db, tenant, name, input).Ok?
    requires QueryResult(result, Upsert(db, tenant, name, input).value.routes, tenant)
    ensures Only(result, tenant, Trim(name)) == SavedRows(tenant, Trim(name), input)
  {
    var alias := Trim(name);
    var saved, table := SavedRows(tenant, alias, input), Upsert(db, tenant, name, input).value.routes;
    assert table == Without(db.routes, tenant, alias) + saved;
    TableAfterUpsert(db.routes, tenant, alias, input);
    SavedRowsInOrder(tenant, alias, input);
    OnlyKeepsPriority(result, tenant, alias);
    OrderIsUnique(PriorityOf, Only(result, tenant, alias), saved);
  }

  // ---------------------------------------------------------------- listing

  datatype Rule = Rule(
    priority: int, upstream: Id, model: string, minTokens: Option<int>, maxTokens: Option<int>,
    keywords: seq<string>, hasImage: bool, start: Option<string>, end: Option<string>)

  datatype Config = Config(
    alias: string, rules: seq<Rule>, fallbackUpstream: Id, fallbackModel: string, allUsers: bool, userIds: seq<Id>)

  function RuleOf(row: RouteRow): Rule {
    Rule(row.priority, row.upstream, row.model, row.minTokens, row.maxTokens,
         ParseAliases(row.keywords), row.hasImage, row.start, row.end)
  }

  function RulesOf(rows: seq<RouteRow>): seq<Rule> {
    if rows == [] then []
    else
      var last := rows[|rows| - 1];
      RulesOf(rows[..|rows| - 1]) + if last.isFallback then [] else [RuleOf(last)]
  }

  /** The last fallback row, or the first row while there is none. */
  function FallbackRowOf(rows: seq<RouteRow>): RouteRow
    requires rows != []
  {
    if rows[|rows| - 1].isFallback || |rows| == 1 then rows[|rows| - 1] else FallbackRowOf(rows[..|rows| - 1])
  }

  /** The configuration that the rows of one alias stand for. */
  function ConfigOf(rows: seq<RouteRow>): Config
    requires rows != []
  {
    var f, last := FallbackRowOf(rows), rows[|rows| - 1];
    Config(rows[0].alias, RulesOf(rows), f.upstream, f.model, last.allUsers, last.userIds.GetOr([]))
  }

  /** One row joins the configuration of its alias. */
  method AddRow(known: Option<Config>, row: RouteRow, ghost before: seq<RouteRow>) returns (entry: Config)
    requires known == if before == [] then None else Some(ConfigOf(before))
    ensures entry == ConfigOf(before + [row])
  {
    assert (before + [row])[..|before|] == before;
    entry := if known.Some? then known.value
             else Config(row.alias, [], row.upstream, row.model, row.allUsers, row.userIds.GetOr([]));
    entry := entry.(allUsers := row.allUsers, userIds := row.userIds.GetOr([]));
    if row.isFallback {
      entry := entry.(fallbackUpstream := row.upstream, fallbackModel := row.model);
      assert RulesOf(before) + [] == RulesOf(before);
    } else {
      entry := entry.(rules := entry.rules + [RuleOf(row)]);
    }
  }

  function Lookup(grouped: map<string, Config>, alias: string): Option<Config> {
    if alias in grouped then Some(grouped[alias]) else None
  }

  /** What the listing shows for an alias. */
  function Listed(rows: seq<RouteRow>, tenant: Id, alias: string): Option<Config> {
    if Only(rows, tenant, alias) == [] then None else Some(ConfigOf(Only(rows, tenant, alias)))
  }

  ghost predicate Groups(grouped: map<string, Config>, rows: seq<RouteRow>, tenant: Id) {
    forall alias :: Lookup(grouped, alias) == Listed(rows, tenant, alias)
  }

  lemma GroupsOneMore(grouped: map<string, Config>, rows: seq<RouteRow>, i: nat, tenant: Id, entry: Config)
    requires i < |rows| && Active(rows[i], tenant) && Groups(grouped, rows[..i], tenant)
    requires entry == ConfigOf(Only(rows[..i], tenant, rows[i].alias) + [rows[i]])
    ensures Groups(grouped[rows[i].alias := entry], rows[..i + 1], tenant)
  {
    var grouped' := grouped[rows[i].alias := entry];
    forall alias ensures Lookup(grouped', alias) == Listed(rows[..i + 1], tenant, alias) {
      OneMoreRow(rows, i, tenant, alias);
      assert alias != rows[i].alias ==> Lookup(grouped', alias) == Lookup(grouped, alias);
    }
  }

  method ListConditionalAliases(rows: seq<RouteRow>, tenant: Id) returns (grouped: map<string, Config>)
    requires forall i :: 0 <= i < |rows| ==> Active(rows[i], tenant)
    ensures forall alias :: Lookup(grouped, alias) == Listed(rows, tenant, alias)
  {
    grouped := map[];
    for i := 0 to |rows|
      invariant Groups(grouped, rows[..i], tenant)
    {
      var row := rows[i];
      var known := Lookup(grouped, row.alias);
      var entry := AddRow(known, row, Only(rows[..i], tenant, row.alias));
      GroupsOneMore(grouped, rows, i, tenant, entry);
      grouped := grouped[row.alias := entry];
    }
    assert rows[..|rows|] == rows;
  }

  lemma OneMoreRow(rows: seq<RouteRow>, i: nat, tenant: Id, alias: string)
    requires i < |rows| && Active(rows[i], tenant)
    ensures Only(rows[..i + 1], tenant, alias) ==
            Only(rows[..i], tenant, alias) + if alias == rows[i].alias then [rows[i]] else []
    ensures alias != rows[i].alias ==> Listed(rows[..i + 1], tenant, alias) == Listed(rows[..i], tenant, alias)
  {
    assert rows[..i + 1][..i] == rows[..i];
    assert Only(rows[..i], tenant, alias) + [] == Only(rows[..i], tenant, alias);
  }

  // ---------------------------------------------------------------- save, then list

  function SavedRule(input: RouteInput, i: nat): Rule
    requires i < |input.rules|
  {
    var r := input.rules[i];
    Rule(i + 1, r.upstream, Trim(r.model), r.minTokens, r.maxTokens, NormalizedKeywords(r.keywords), r.hasImage,
        r.start, r.end)
  }

  /** Keywords without commas, and times that are not empty texts. */
  ghost predicate Storable(r: RuleInput) {
    CommaFree(NormalizedKeywords(r.keywords)) && r.start != Some("") && r.end != Some("")
  }

  lemma RuleRoundTrip(tenant: Id, alias: string, input: RouteInput, i: nat)
    requires i < |input.rules|
    ensures RuleOf(RuleRow(tenant, alias, input, i)) == SavedRule(input, i) <==> Storable(input.rules[i])
  {
    KeywordsRoundTrip(input.rules[i].keywords);
  }

  function EachRule(rows: seq<RouteRow>): seq<Rule> {
    seq(|rows|, i requires 0 <= i < |rows| => RuleOf(rows[i]))
  }

  lemma EachRuleSnoc(rows: seq<RouteRow>, row: RouteRow)
    ensures EachRule(rows + [row]) == EachRule(rows) + [RuleOf(row)]
  {
  }

  lemma {:induction false} RulesOfRuleRows(rows: seq<RouteRow>)
    requires forall i :: 0 <= i < |rows| ==> !rows[i].isFallback
    ensures RulesOf(rows) == EachRule(rows)
  {
    if rows == [] {
    } else {
      var init, last := rows[..|rows| - 1], rows[|rows| - 1];
      RulesOfRuleRows(init);
      EachRuleSnoc(init, last);
      SplitLast(rows);
    }
  }

  lemma ConfigOfSaved(tenant: Id, alias: string, input: RouteInput)
    ensures var c, n := ConfigOf(SavedRows(tenant, alias, input)), |input.rules|;
            && c.alias == alias && |c.rules| == n
            && (forall i :: 0 <= i < n ==> c.rules[i] == RuleOf(RuleRow(tenant, alias, input, i)))
            && c.fallbackUpstream == input.fallbackUpstream && c.fallbackModel == Trim(input.fallbackModel)
            && c.allUsers == input.allUsers && c.userIds == UserColumn(input).GetOr([])
  {
    var saved, n := SavedRows(tenant, alias, input), |input.rules|;
    var rules := RuleRows(tenant, alias, input);
    assert saved[..n] == rules;
    assert saved[n] == FallbackRow(tenant, alias, input);
    RulesOfRuleRows(rules);
    assert RulesOf(saved) == RulesOf(rules) + [];
  }

  /** Saving a smart route and listing the routes, from any ordered query result, gives back the rules in
      input order with priorities 1 to n and the fallback; a rule comes back as entered (up to
      normalisation) exactly when its keywords contain no comma and its times are not empty texts. */
  lemma SaveThenList(db: Db, tenant: Id, name: string, input: RouteInput, result: seq<RouteRow>)
    requires Upsert(db, tenant, name, input).Ok?
    requires QueryResult(result, Upsert(db, tenant, name, input).value.routes, tenant)
    ensures var listed := Listed(result, tenant, Trim(name));
            && listed.Some?
            && var c := listed.value;
               && c.alias == Trim(name) && |c.rules| == |input.rules|
               && (forall i ::
                   0 <= i < |input.rules| ==> (c.rules[i] == SavedRule(input, i) <==> Storable(input.rules[i])))
               && (forall i :: 0 <= i < |input.rules| ==> c.rules[i].priority == i + 1)
               && c.fallbackUpstream == input.fallbackUpstream && c.fallbackModel == Trim(input.fallbackModel)
               && c.allUsers == input.allUsers
                  && (!input.allUsers ==> forall u :: u in c.userIds <==> u in input.userIds)
  {
    var alias := Trim(name);
    QueryAfterUpsert(db, tenant, name, input, result);
    ConfigOfSaved(tenant, alias, input);
    forall i | 0 <= i < |input.rules|
      ensures RuleOf(RuleRow(tenant, alias, input, i)) == SavedRule(input, i) <==> Storable(input.rules[i])
    {
      RuleRoundTrip(tenant, alias, input, i);
    }
  }
}
