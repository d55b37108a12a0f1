/** Choosing the routes of a request (src/store/mod.rs, `resolve_conditional_alias_routes`,
    `ConditionalAliasRouteCache::matches` and `is_visible_to`). */
module RouteResolution {
  import opened Wrappers
  import opened Text
  import opened AliasText
  import opened AdminTables
  import opened SmartRoutes

  type Target = (Id, string)

  /** The request as the routes see it; lower-casing and model access are left open, `now` is "HH:MM". */
  datatype Context = Context(
    user: Id, access: Target -> bool, lower: string -> string,
    text: string, tokens: int, hasImage: bool, now: string)

  predicate KeywordFound(c: Context, keywords: seq<string>) {
    exists i | 0 <= i < |keywords| :: Contains(c.lower(c.text), c.lower(Trim(keywords[i])))
  }

  predicate InTimeRange(start: Option<string>, end: Option<string>, now: string) {
    (start.Some? ==> AtMost(start.value, now)) && (end.Some? ==> AtMost(now, end.value))
  }

  /** `matches`: every condition that is present holds; keywords are split at commas. */
  predicate Matches(c: Context, row: RouteRow) {
    && (row.hasImage ==> c.hasImage)
    && (row.minTokens.Some? ==> row.minTokens.value <= c.tokens)
    && (row.maxTokens.Some? ==> c.tokens <= row.maxTokens.value)
    && (row.keywords.Some? && row.keywords.value != "" ==> KeywordFound(c, Split(row.keywords.value, ',')))
    && InTimeRange(row.start, row.end, c.now)
  }

  predicate VisibleTo(row: RouteRow, user: Id) {
    row.allUsers || (row.userIds.Some? && user in row.userIds.value)
  }

  function TargetOf(row: RouteRow): Target {
    (row.upstream, row.model)
  }

  predicate Reachable(c: Context, row: RouteRow) {
    VisibleTo(row, c.user) && c.access(TargetOf(row))
  }

  // ---------------------------------------------------------------- the two passes

  function LastFallback(c: Context, rows: seq<RouteRow>): Option<Target> {
    if rows == [] then None
    else
      var last := rows[|rows| - 1];
      if last.isFallback && Reachable(c, last) then Some(TargetOf(last)) else LastFallback(c, rows[..|rows| - 1])
  }

  predicate Hits(c: Context, row: RouteRow) {
    !row.isFallback && Reachable(c, row) && Matches(c, row)
  }

  function FirstHit(c: Context, rows: seq<RouteRow>): Option<Target> {
    if rows == [] then None
    else
      var before := FirstHit(c, rows[..|rows| - 1]);
      if before.Some? then before
      else if Hits(c, rows[|rows| - 1]) then Some(TargetOf(rows[|rows| - 1])) else None
  }

  function AsSeq(t: Option<Target>): seq<Target> {
    if t.Some? then [t.value] else []
  }

  /** The first rule that hits, then the fallback unless it is the same target. */
  function Routes(hit: Option<Target>, fallback: Option<Target>): seq<Target> {
    AsSeq(hit) + if hit == fallback then [] else AsSeq(fallback)
  }

  method ResolveConditionalAliasRoutes(c: Context, rows: seq<RouteRow>) returns (out: seq<Target>)
    ensures out == Routes(FirstHit(c, rows), LastFallback(c, rows))
  {
    if rows == [] {
      return [];
    }
    var fallback: Option<Target> := None;
    for i := 0 to |rows|
      invariant fallback == LastFallback(c, rows[..i])
    {
      assert rows[..i + 1][..i] == rows[..i];
      if !rows[i].isFallback || !VisibleTo(rows[i], c.user) {
        continue;
      }
      if c.access(TargetOf(rows[i])) {
        fallback := Some(TargetOf(rows[i]));
      }
    }
    assert rows[..|rows|] == rows;
    for i := 0 to |rows|
      invariant FirstHit(c, rows[..i]).None?
    {
      assert rows[..i + 1][..i] == rows[..i];
      if rows[i].isFallback || !VisibleTo(rows[i], c.user) || !c.access(TargetOf(rows[i])) {
        continue;
      }
      if Matches(c, rows[i]) {
        FirstHitStays(c, rows, i + 1);
        out := [TargetOf(rows[i])];
        if fallback.Some? && (fallback.value.0 != rows[i].upstream || fallback.value.1 != rows[i].model) {
          out := out + [fallback.value];
        }
        return;
      }
    }
    out := AsSeq(fallback);
  }

  lemma {:induction false} FirstHitStays(c: Context, rows: seq<RouteRow>, i: nat)
    requires i <= |rows| && FirstHit(c, rows[..i]).Some?
    ensures FirstHit(c, rows) == FirstHit(c, rows[..i])
    decreases |rows|
  {
    if i < |rows| {
      assert rows[..|rows| - 1][..i] == rows[..i];
      FirstHitStays(c, rows[..|rows| - 1], i);
    } else {
      assert rows[..i] == rows;
    }
  }

  lemma {:induction false} ChosenIsReachable(c: Context, rows: seq<RouteRow>)
    ensures FirstHit(c, rows).Some? ==> c.access(FirstHit(c, rows).value)
    ensures LastFallback(c, rows).Some? ==> c.access(LastFallback(c, rows).value)
  {
    if rows == [] {
    } else {
      ChosenIsReachable(c, rows[..|rows| - 1]);
    }
  }

  /** Whatever the rows, at most two targets come out, never twice the same, and the user may use them. */
  lemma AtMostTwoDistinctRoutes(c: Context, rows: seq<RouteRow>)
    ensures var out := Routes(FirstHit(c, rows), LastFallback(c, rows));
            && |out| <= 2 && (|out| == 2 ==> out[0] != out[1])
            && forall i :: 0 <= i < |out| ==> c.access(out[i])
  {
    ChosenIsReachable(c, rows);
  }

  // ---------------------------------------------------------------- save, then resolve

  /** A rule as it was entered, applied to a request: a keyword that contains commas counts as each of its
      parts, and an empty time is no limit. */
  predicate RuleApplies(c: Context, r: RuleInput) {
    var keywords := NormalizedKeywords(r.keywords);
    && (r.hasImage ==> c.hasImage)
    && (r.minTokens.Some? ==> r.minTokens.value <= c.tokens)
    && (r.maxTokens.Some? ==> c.tokens <= r.maxTokens.value)
    && (keywords != [] ==> exists i | 0 <= i < |keywords| :: KeywordFound(c, Split(keywords[i], ',')))
    && InTimeRange(NonBlank(r.start), NonBlank(r.end), c.now)
  }

  /** The same, with every keyword and every time taken as it stands. */
  predicate AppliesAsWritten(c: Context, r: RuleInput) {
    var keywords := NormalizedKeywords(r.keywords);
    && (r.hasImage ==> c.hasImage)
    && (r.minTokens.Some? ==> r.minTokens.value <= c.tokens)
    && (r.maxTokens.Some? ==> c.tokens <= r.maxTokens.value)
    && (keywords != [] ==> exists i | 0 <= i < |keywords| :: Contains(c.lower(c.text), c.lower(keywords[i])))
    && InTimeRange(r.start, r.end, c.now)
  }

  predicate Permitted(c: Context, input: RouteInput) {
    input.allUsers || exists i | 0 <= i < |input.userIds| :: input.userIds[i] == c.user
  }

  lemma FoundInConcat(c: Context, a: seq<string>, b: seq<string>)
    ensures KeywordFound(c, a + b) <==> KeywordFound(c, a) || KeywordFound(c, b)
  {
    var all := a + b;
    assert forall i :: 0 <= i < |a| ==> all[i] == a[i];
    assert forall i :: 0 <= i < |b| ==> all[|a| + i] == b[i];
  }

  lemma {:induction false} FoundInParts(c: Context, names: seq<string>)
    ensures KeywordFound(c, AllParts(names)) <==> exists i :: 0 <= i < |names| && KeywordFound(c, Split(names[i], ','))
  {
    if names == [] {
    } else {
      var first, rest := names[0], names[1..];
      FoundInParts(c, rest);
      FoundInConcat(c, Split(first, ','), AllParts(rest));
      assert forall i :: 0 <= i < |rest| ==> names[i + 1] == rest[i];
      assert forall i :: 0 < i < |names| ==> names[i] == rest[i - 1];
    }
  }

  lemma StoredIsNotEmpty(names: seq<string>)
    requires AllTidy(names) && names != []
    ensures Stored(names).Some? && Stored(names).value != ""
  {
    assert Tidy(names[0]);
    assert |Join(names, ",")| >= |names[0]|;
  }

  /** A stored rule matches exactly the requests to which the entered rule applies, for every rule. */
  lemma SavedRuleMatches(c: Context, tenant: Id, alias: string, input: RouteInput, i: nat)
    requires i < |input.rules|
    ensures Matches(c, RuleRow(tenant, alias, input, i)) <==> RuleApplies(c, input.rules[i])
  {
    var names := NormalizedKeywords(input.rules[i].keywords);
    CleanedIsTidy(input.rules[i].keywords.GetOr([]));
    DedupedKeepsTidy(Cleaned(input.rules[i].keywords.GetOr([])));
    if names != [] {
      StoredIsNotEmpty(names);
      PartsOfJoin(names);
      FoundInParts(c, names);
    }
  }

  /** Without commas in the keywords and without empty times a rule applies as it is written. */
  lemma StorableAppliesAsWritten(c: Context, r: RuleInput)
    requires Storable(r)
    ensures RuleApplies(c, r) <==> AppliesAsWritten(c, r)
  {
    var names := NormalizedKeywords(r.keywords);
    CleanedIsTidy(r.keywords.GetOr([]));
    DedupedKeepsTidy(Cleaned(r.keywords.GetOr([])));
    forall i | 0 <= i < |names|
      ensures KeywordFound(c, Split(names[i], ',')) <==> Contains(c.lower(c.text), c.lower(names[i]))
    {
      PlainKeyword(c, names[i]);
    }
  }

  lemma PlainKeyword(c: Context, name: string)
    requires Tidy(name) && ',' !in name
    ensures KeywordFound(c, Split(name, ',')) <==> Contains(c.lower(c.text), c.lower(name))
  {
    FindNone(name, ',');
    TrimOfTrimmed(name);
    assert name[..|name|] == name;
    FoundInOne(c, name);
  }

  lemma FoundInOne(c: Context, name: string)
    ensures KeywordFound(c, [name]) <==> Contains(c.lower(c.text), c.lower(Trim(name)))
  {
    assert [name][0] == name;
  }

  /** A keyword with a comma is found as soon as one of its parts is. */
  lemma CommaKeywordMatchesParts(c: Context, x: string, y: string)
    ensures KeywordFound(c, Split(x + "," + y, ',')) <==>
            KeywordFound(c, Split(x, ',')) || KeywordFound(c, Split(y, ','))
  {
    SplitOfConcat(x, y);
    FoundInConcat(c, Split(x, ','), Split(y, ','));
  }

  /** The first rule, in input order, that applies and leads to a model the user may use. */
  function FirstApplying(c: Context, rules: seq<RuleInput>): Option<Target> {
    if rules == [] then None
    else
      var before, r := FirstApplying(c, rules[..|rules| - 1]), rules[|rules| - 1];
      if before.Some? then before
      else if c.access((r.upstream, Trim(r.model))) && RuleApplies(c, r) then Some((r.upstream, Trim(r.model)))
      else None
  }

  lemma PermittedMeansVisible(c: Context, input: RouteInput, row: RouteRow)
    requires row.allUsers == input.allUsers && row.userIds == UserColumn(input)
    ensures VisibleTo(row, c.user) <==> Permitted(c, input)
  {
  }

  /** A saved rule hits exactly when the entered rule applies and its model may be used. */
  lemma SavedRuleHits(c: Context, tenant: Id, alias: string, input: RouteInput, i: nat)
    requires i < |input.rules| && Permitted(c, input)
    ensures var row, r := RuleRow(tenant, alias, input, i), input.rules[i];
            && TargetOf(row) == (r.upstream, Trim(r.model)) && !row.isFallback
            && (Hits(c, row) <==> c.access((r.upstream, Trim(r.model))) && RuleApplies(c, r))
  {
    SavedRuleMatches(c, tenant, alias, input, i);
    PermittedMeansVisible(c, input, RuleRow(tenant, alias, input, i));
  }

  lemma OneMoreRow(c: Context, rows: seq<RouteRow>, n: nat)
    requires n < |rows| && !rows[n].isFallback
    ensures LastFallback(c, rows[..n + 1]) == LastFallback(c, rows[..n])
    ensures var before := FirstHit(c, rows[..n]);
            FirstHit(c, rows[..n + 1]) ==
            if before.Some? then before else if Hits(c, rows[n]) then Some(TargetOf(rows[n])) else None
  {
    assert rows[..n + 1][..n] == rows[..n];
  }

  lemma {:induction false} FirstHitOfSaved(c: Context, tenant: Id, alias: string, input: RouteInput, n: nat)
    requires n <= |input.rules| && Permitted(c, input)
    ensures FirstHit(c, RuleRows(tenant, alias, input)[..n]) == FirstApplying(c, input.rules[..n])
    ensures LastFallback(c, RuleRows(tenant, alias, input)[..n]) == None
  {
    if n == 0 {
    } else {
      FirstHitOfSaved(c, tenant, alias, input, n - 1);
      SavedRuleHits(c, tenant, alias, input, n - 1);
      OneMoreRow(c, RuleRows(tenant, alias, input), n - 1);
      assert input.rules[..n][..n - 1] == input.rules[..n - 1];
    }
  }

  lemma {:induction false} InvisibleRoutes(c: Context, rows: seq<RouteRow>)
    requires forall i :: 0 <= i < |rows| ==> !VisibleTo(rows[i], c.user)
    ensures FirstHit(c, rows) == None && LastFallback(c, rows) == None
  {
    if rows == [] {
    } else {
      InvisibleRoutes(c, rows[..|rows| - 1]);
    }
  }

  lemma RoutesOfSaved(c: Context, tenant: Id, alias: string, input: RouteInput)
    ensures var saved := SavedRows(tenant, alias, input);
            var fallback := (input.fallbackUpstream, Trim(input.fallbackModel));
            Routes(FirstHit(c, saved), LastFallback(c, saved)) ==
            if Permitted(c, input)
            then Routes(FirstApplying(c, input.rules), if c.access(fallback) then Some(fallback) else None)
            else []
  {
    var rows, saved, n := RuleRows(tenant, alias, input), SavedRows(tenant, alias, input), |input.rules|;
    assert saved[..n] == rows[..n] && saved[n] == FallbackRow(tenant, alias, input);
    PermittedMeansVisible(c, input, saved[n]);
    if Permitted(c, input) {
      assert input.rules[..n] == input.rules;
      FirstHitOfSaved(c, tenant, alias, input, n);
    } else {
      forall i | 0 <= i < |saved| ensures !VisibleTo(saved[i], c.user) {
        PermittedMeansVisible(c, input, saved[i]);
      }
      InvisibleRoutes(c, saved);
    }
  }

  /** From the administrator's form to a request: after a smart route is saved, reloading the routes in
      any ordered query result and resolving its name gives, to every permitted user, the first entered
      rule that applies and is accessible, followed by the accessible fallback if it is different. */
  lemma SaveThenResolve(c: Context, db: Db, tenant: Id, name: string, input: RouteInput, result: seq<RouteRow>)
    requires Upsert(db, tenant, name, input).Ok?
    requires QueryResult(result, Upsert(db, tenant, name, input).value.routes, tenant)
    ensures var rows := Only(result, tenant, Trim(name));
            var fallback := (input.fallbackUpstream, Trim(input.fallbackModel));
            Routes(FirstHit(c, rows), LastFallback(c, rows)) ==
            if Permitted(c, input)
            then Routes(FirstApplying(c, input.rules), if c.access(fallback) then Some(fallback) else None)
            else []
  {
    QueryAfterUpsert(db, tenant, name, input, result);
    RoutesOfSaved(c, tenant, Trim(name), input);
  }
}
