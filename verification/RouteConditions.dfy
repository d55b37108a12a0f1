/** When a smart route is accepted, and when one of its rules matches, said over the administrator's form
    (src/db/model_visibility.rs, `upsert_conditional_alias`; src/store/mod.rs, `matches`). */
module RouteConditions {
  import opened Wrappers
  import opened Text
  import opened AliasText
  import opened AdminTables
  import opened SmartRoutes
  import opened RouteResolution
  import opened ClockTexts
  import FailoverGuards
  import ToolCalls

  // ---------------------------------------------------------------- acceptance

  ghost predicate Blank(s: string) {
    AllWhitespace(s)
  }

  lemma BlankIff(s: string)
    ensures Trim(s) == "" <==> Blank(s)
  {
    var pre, post := TrimSplits(s);
    if Trim(s) == "" {
      assert s == pre + post;
    } else {
      assert s[|pre|] == Trim(s)[0];
    }
  }

  ghost predicate AnyKeyword(keywords: Option<seq<string>>) {
    keywords.Some? && exists i :: 0 <= i < |keywords.value| && !Blank(keywords.value[i])
  }

  lemma {:induction false} CleanedIsEmptyIff(pieces: seq<string>)
    ensures Cleaned(pieces) == [] <==> forall i :: 0 <= i < |pieces| ==> Blank(pieces[i])
  {
    if pieces == [] {
    } else {
      var init, last := pieces[..|pieces| - 1], pieces[|pieces| - 1];
      CleanedIsEmptyIff(init);
      BlankIff(last);
      assert forall i :: 0 <= i < |init| ==> init[i] == pieces[i];
    }
  }

  lemma KeywordsIff(keywords: Option<seq<string>>)
    ensures NormalizedKeywords(keywords) == [] <==> !AnyKeyword(keywords)
  {
    var pieces := keywords.GetOr([]);
    CleanedIsEmptyIff(pieces);
    DedupedKeepsMembers(Cleaned(pieces));
    if Cleaned(pieces) != [] {
      assert Cleaned(pieces)[0] in Deduped(Cleaned(pieces));
    }
  }

  /** What a rule may lack or contradict. */
  ghost predicate NoModel(r: RuleInput) {
    Blank(r.model)
  }

  ghost predicate TokensCross(r: RuleInput) {
    r.minTokens.Some? && r.maxTokens.Some? && r.maxTokens.value < r.minTokens.value
  }

  ghost predicate Unconditional(r: RuleInput) {
    && r.minTokens.None? && r.maxTokens.None? && r.start.None? && r.end.None?
    && !r.hasImage && !AnyKeyword(r.keywords)
  }

  /** The end is not after the start. */
  ghost predicate TimesCross(r: RuleInput) {
    r.start.Some? && r.end.Some? && !Before(r.start.value, r.end.value)
  }

  ghost predicate Sound(r: RuleInput) {
    !NoModel(r) && !TokensCross(r) && !Unconditional(r) && !TimesCross(r)
  }

  lemma TimesCrossIff(start: string, end: string)
    ensures AtMost(end, start) <==> !Before(start, end)
  {
    AtMostIsTextOrder(end, start);
    AtMostIsTextOrder(start, end);
    TextOrderIsTotal(start, end);
    NeverBeforeItself(start);
  }

  lemma NeverBeforeItself(s: string)
    ensures !Before(s, s)
  {
  }

  /** Each complaint about a rule names a fault the rule has, and a rule without complaint is sound. */
  lemma RuleErrorIs(r: RuleInput)
    ensures RuleError(r) in {None, Some(EmptyModel), Some(BadTokenRange), Some(NoCondition), Some(BadTimeRange)}
    ensures RuleError(r) == None <==> Sound(r)
    ensures RuleError(r) == Some(EmptyModel) <==> NoModel(r)
    ensures RuleError(r) == Some(BadTokenRange) <==> !NoModel(r) && TokensCross(r)
    ensures RuleError(r) == Some(NoCondition) <==> !NoModel(r) && Unconditional(r)
    ensures RuleError(r) == Some(BadTimeRange) <==> !NoModel(r) && !TokensCross(r) && TimesCross(r)
  {
    BlankIff(r.model);
    KeywordsIff(r.keywords);
    if r.start.Some? && r.end.Some? {
      TimesCrossIff(r.start.value, r.end.value);
    }
  }

  /** No model of the tenant has the name among its stored aliases. */
  ghost predicate FreeOfAliases(db: Db, tenant: Id, name: string) {
    forall key :: key in db.models && key.0 in db.upstreams && db.upstreams[key.0].tenant == tenant ==>
      name !in ParseAliases(db.models[key].alias)
  }

  ghost predicate SomeTarget(input: RouteInput, id: Id) {
    id == input.fallbackUpstream || exists i :: 0 <= i < |input.rules| && input.rules[i].upstream == id
  }

  ghost predicate Anthropic(db: Db, id: Id)
    requires id in db.upstreams
  {
    FailoverGuards.SameLetters(db.upstreams[id].apiType, "anthropic")
  }

  /** All targets are stored upstreams, of one API family. */
  ghost predicate TargetsFit(db: Db, input: RouteInput) {
    && (forall id :: SomeTarget(input, id) ==> id in db.upstreams)
    && forall a, b :: SomeTarget(input, a) && SomeTarget(input, b) && a in db.upstreams && b in db.upstreams ==>
         (Anthropic(db, a) <==> Anthropic(db, b))
  }

  lemma TargetsAreThese(input: RouteInput, id: Id)
    ensures id in Targets(input) <==> SomeTarget(input, id)
  {
    var targets := Targets(input);
    assert targets[|input.rules|] == input.fallbackUpstream;
    assert forall i :: 0 <= i < |input.rules| ==> targets[i] == input.rules[i].upstream;
  }

  lemma FamilyIff(db: Db, id: Id)
    requires id in db.upstreams
    ensures IsAnthropic(db, id) <==> Anthropic(db, id)
  {
    FailoverGuards.LowerIff(db.upstreams[id].apiType, "anthropic");
  }

  lemma OneFamilyIff(db: Db, input: RouteInput)
    ensures OneFamily(db, Targets(input)) <==> TargetsFit(db, input)
  {
    var targets := Targets(input);
    forall id ensures id in targets <==> SomeTarget(input, id) {
      TargetsAreThese(input, id);
    }
    forall id | id in db.upstreams ensures IsAnthropic(db, id) <==> Anthropic(db, id) {
      FamilyIff(db, id);
    }
    assert forall i :: 0 <= i < |targets| ==> targets[i] in targets;
    if OneFamily(db, targets) {
      FamilyOfTargets(db, input, targets);
    }
  }

  lemma FamilyOfTargets(db: Db, input: RouteInput, targets: seq<Id>)
    requires OneFamily(db, targets) && forall id :: id in targets <==> SomeTarget(input, id)
    requires forall id :: id in db.upstreams ==> (IsAnthropic(db, id) <==> Anthropic(db, id))
    ensures TargetsFit(db, input)
  {
    forall a, b | SomeTarget(input, a) && SomeTarget(input, b) && a in db.upstreams && b in db.upstreams
      ensures Anthropic(db, a) <==> Anthropic(db, b)
    {
      var i :| 0 <= i < |targets| && targets[i] == a;
      var j :| 0 <= j < |targets| && targets[j] == b;
      assert IsAnthropic(db, targets[i]) == IsAnthropic(db, targets[j]);
    }
  }

  /** A smart route is saved exactly when its name is not blank and no model alias of the tenant, every rule is
      sound, the fallback names a model, and all targets are stored upstreams of one family. */
  lemma RouteIsAcceptedIff(db: Db, tenant: Id, name: string, input: RouteInput)
    ensures Upsert(db, tenant, name, input).Ok? <==>
            && !Blank(name) && FreeOfAliases(db, tenant, Trim(name))
            && (forall i :: 0 <= i < |input.rules| ==> Sound(input.rules[i]))
            && !Blank(input.fallbackModel) && TargetsFit(db, input)
  {
    UpsertAcceptsIff(db, tenant, name, input);
    BlankIff(name);
    BlankIff(input.fallbackModel);
    OneFamilyIff(db, input);
    forall i | 0 <= i < |input.rules| ensures RuleError(input.rules[i]).None? <==> Sound(input.rules[i]) {
      RuleErrorIs(input.rules[i]);
    }
  }

  /** A model's visibility is saved exactly when the upstream is stored, the headers are an object, and none of
      its aliases names an active smart route of the tenant or is an alias of another of its models. */
  lemma VisibilityIsAcceptedIff(db: Db, key: ModelKey, input: VisibilityInput)
    ensures SetVisibility(db, key, input).Ok? <==>
            && key.0 in db.upstreams && input.headers != NotAnObject
            && forall name :: name in Normalized(input.modelAliases, input.modelAlias) ==>
                 FreeOfRoutes(db, db.upstreams[key.0].tenant, name)
                 && FreeOfOthers(db, db.upstreams[key.0].tenant, key, name)
  {
    SetVisibilityAcceptsIff(db, key, input);
  }

  ghost predicate FreeOfRoutes(db: Db, tenant: Id, name: string) {
    forall i :: 0 <= i < |db.routes| ==>
      !(db.routes[i].tenant == tenant && db.routes[i].status == "active" && db.routes[i].alias == name)
  }

  ghost predicate FreeOfOthers(db: Db, tenant: Id, key: ModelKey, name: string) {
    forall other :: other in db.models && other != key && other.0 in db.upstreams
                    && db.upstreams[other.0].tenant == tenant ==>
      name !in ParseAliases(db.models[other].alias)
  }

  // ---------------------------------------------------------------- when a rule matches

  /** Some comma-separated part of some keyword that is not blank occurs in the text, up to case. */
  ghost predicate Mentioned(c: Context, keywords: seq<string>) {
    exists i, part :: 0 <= i < |keywords| && part in Split(keywords[i], ',')
                      && Occurs(c.lower(Trim(part)), c.lower(c.text))
  }

  lemma KeywordsMentioned(c: Context, keywords: seq<string>)
    ensures (exists i :: 0 <= i < |keywords| && KeywordFound(c, Split(keywords[i], ','))) <==> Mentioned(c, keywords)
  {
    forall i | 0 <= i < |keywords|
      ensures KeywordFound(c, Split(keywords[i], ',')) <==>
              exists part :: part in Split(keywords[i], ',') && Occurs(c.lower(Trim(part)), c.lower(c.text))
    {
      OneMentioned(c, Split(keywords[i], ','));
    }
  }

  lemma OneMentioned(c: Context, parts: seq<string>)
    ensures KeywordFound(c, parts) <==> exists part :: part in parts && Occurs(c.lower(Trim(part)), c.lower(c.text))
  {
    forall part: string ensures Contains(c.lower(c.text), c.lower(Trim(part))) <==>
                                Occurs(c.lower(Trim(part)), c.lower(c.text)) {
      ContainsIff(c.lower(c.text), c.lower(Trim(part)));
    }
    if part :| part in parts && Occurs(c.lower(Trim(part)), c.lower(c.text)) {
      var i :| 0 <= i < |parts| && parts[i] == part;
      assert Contains(c.lower(c.text), c.lower(Trim(parts[i])));
    }
  }

  /** Not before the start and not after the end, in the order of texts; an empty time is no limit. */
  ghost predicate InTime(r: RuleInput, now: string) {
    && (r.start.Some? && r.start.value != "" ==> !Before(now, r.start.value))
    && (r.end.Some? && r.end.value != "" ==> !Before(r.end.value, now))
  }

  ghost predicate Fits(c: Context, r: RuleInput) {
    && (r.hasImage ==> c.hasImage)
    && (r.minTokens.Some? ==> r.minTokens.value <= c.tokens)
    && (r.maxTokens.Some? ==> c.tokens <= r.maxTokens.value)
    && (NormalizedKeywords(r.keywords) != [] ==> Mentioned(c, NormalizedKeywords(r.keywords)))
    && InTime(r, c.now)
  }

  /** A saved rule matches a request exactly when all its conditions hold. */
  lemma RuleMatchesIff(c: Context, tenant: Id, alias: string, input: RouteInput, i: nat)
    requires i < |input.rules|
    ensures Matches(c, RuleRow(tenant, alias, input, i)) <==> Fits(c, input.rules[i])
  {
    var r := input.rules[i];
    SavedRuleMatches(c, tenant, alias, input, i);
    KeywordsMentioned(c, NormalizedKeywords(r.keywords));
    if r.start.Some? {
      TimesCrossIff(c.now, r.start.value);
    }
    if r.end.Some? {
      TimesCrossIff(r.end.value, c.now);
    }
  }

  // ---------------------------------------------------------------- times in minutes

  function ClockOf(t: Option<nat>): Option<string>
    requires t.Some? ==> t.value < 1440
  {
    if t.Some? then Some(Clock(t.value)) else None
  }

  /** A rule with nothing but a time range, given in minutes of the day, matches exactly between its times,
      both included. */
  lemma TimeRangeInMinutes(c: Context, tenant: Id, alias: string, input: RouteInput, i: nat,
                           start: Option<nat>, end: Option<nat>, now: nat)
    requires i < |input.rules| && now < 1440 && c.now == Clock(now)
    requires (start.Some? ==> start.value < 1440) && (end.Some? ==> end.value < 1440)
    requires var r := input.rules[i];
             && r.start == ClockOf(start) && r.end == ClockOf(end)
             && r.minTokens.None? && r.maxTokens.None? && !r.hasImage && !AnyKeyword(r.keywords)
    ensures Matches(c, RuleRow(tenant, alias, input, i)) <==>
            (start.Some? ==> start.value <= now) && (end.Some? ==> now <= end.value)
  {
    RuleMatchesIff(c, tenant, alias, input, i);
    KeywordsIff(input.rules[i].keywords);
    if start.Some? {
      ClockBefore(now, start.value);
    }
    if end.Some? {
      ClockBefore(end.value, now);
    }
  }

  lemma ClockBefore(t: nat, u: nat)
    requires t < 1440 && u < 1440
    ensures Before(Clock(t), Clock(u)) <==> t < u
  {
    TimesCrossIff(Clock(t), Clock(u));
    ClockOrder(u, t);
  }

  /** A rule with both times is sound only if the first is earlier, and then its range contains both. */
  lemma AcceptedRangesAreInhabited(r: RuleInput, start: nat, end: nat)
    requires start < 1440 && end < 1440 && r.start == Some(Clock(start)) && r.end == Some(Clock(end))
    requires RuleError(r) == None
    ensures start < end && InTime(r, Clock(start)) && InTime(r, Clock(end))
  {
    RuleErrorIs(r);
    ClockBefore(start, end);
    ClockBefore(end, start);
    ClockBefore(start, start);
    ClockBefore(end, end);
  }

  // ---------------------------------------------------------------- which routes come out

  /** The position of the first rule, in input order, that fits and leads to a model the user may use. */
  ghost predicate Chosen(c: Context, rules: seq<RuleInput>, i: nat) {
    && i < |rules| && Fits(c, rules[i]) && c.access((rules[i].upstream, Trim(rules[i].model)))
    && forall j :: 0 <= j < i ==> !(Fits(c, rules[j]) && c.access((rules[j].upstream, Trim(rules[j].model))))
  }

  lemma AppliesIffFits(c: Context, r: RuleInput)
    ensures RuleApplies(c, r) <==> Fits(c, r)
  {
    var input := RouteInput([r], 0, "", true, []);
    SavedRuleMatches(c, 0, "", input, 0);
    RuleMatchesIff(c, 0, "", input, 0);
  }

  lemma {:induction false} FirstApplyingIs(c: Context, rules: seq<RuleInput>)
    ensures FirstApplying(c, rules).None? ==> forall i :: !Chosen(c, rules, i)
    ensures FirstApplying(c, rules).Some? ==>
            exists i: nat ::
              Chosen(c, rules, i) && FirstApplying(c, rules).value == (rules[i].upstream, Trim(rules[i].model))
  {
    if rules == [] {
    } else {
      var init, last := rules[..|rules| - 1], rules[|rules| - 1];
      FirstApplyingIs(c, init);
      AppliesIffFits(c, last);
      ChosenSnoc(c, init, last);
      SplitLast(rules);
    }
  }

  lemma ChosenSnoc(c: Context, rules: seq<RuleInput>, r: RuleInput)
    ensures forall i: nat :: i < |rules| ==> (Chosen(c, rules + [r], i) <==> Chosen(c, rules, i))
    ensures Chosen(c, rules + [r], |rules|) <==>
            Fits(c, r) && c.access((r.upstream, Trim(r.model))) && forall i :: !Chosen(c, rules, i)
  {
    var more := rules + [r];
    assert more[|rules|] == r && forall i :: 0 <= i < |rules| ==> more[i] == rules[i];
    if exists j :: 0 <= j < |rules| && Fits(c, rules[j]) && c.access((rules[j].upstream, Trim(rules[j].model))) {
      var j := FirstFit(c, rules);
    }
  }

  lemma FirstFit(c: Context, rules: seq<RuleInput>) returns (i: nat)
    requires exists j :: 0 <= j < |rules| && Fits(c, rules[j]) && c.access((rules[j].upstream, Trim(rules[j].model)))
    ensures Chosen(c, rules, i)
  {
    i := 0;
    while !(Fits(c, rules[i]) && c.access((rules[i].upstream, Trim(rules[i].model))))
      invariant i < |rules|
      invariant forall j :: 0 <= j < i ==> !(Fits(c, rules[j]) && c.access((rules[j].upstream, Trim(rules[j].model))))
      decreases |rules| - i
    {
      i := i + 1;
    }
  }

  lemma OneIsChosen(c: Context, rules: seq<RuleInput>, i: nat, j: nat)
    requires Chosen(c, rules, i) && Chosen(c, rules, j)
    ensures i == j
  {
  }

  function TargetOfRule(r: RuleInput): Target {
    (r.upstream, Trim(r.model))
  }

  /** Who is not permitted gets nothing; everyone else gets the target of the first rule that fits and may be
      used, if there is one, and then the fallback, if it may be used and is another target. */
  ghost predicate RoutedTo(c: Context, input: RouteInput, out: seq<Target>) {
    var fallback := (input.fallbackUpstream, Trim(input.fallbackModel));
    if !input.allUsers && c.user !in input.userIds then out == []
    else
      && (forall i: nat :: Chosen(c, input.rules, i) ==> out == WithFallback(c, TargetOfRule(input.rules[i]), fallback))
      && ((forall i: nat :: !Chosen(c, input.rules, i)) ==> out == if c.access(fallback) then [fallback] else [])
  }

  ghost function WithFallback(c: Context, target: Target, fallback: Target): seq<Target> {
    if c.access(fallback) && fallback != target then [target, fallback] else [target]
  }

  lemma FirstIsRoutedTo(c: Context, input: RouteInput)
    requires input.allUsers || c.user in input.userIds
    ensures var fallback := (input.fallbackUpstream, Trim(input.fallbackModel));
            RoutedTo(c, input,
                     Routes(FirstApplying(c, input.rules), if c.access(fallback) then Some(fallback) else None))
  {
    var hit, fallback := FirstApplying(c, input.rules), (input.fallbackUpstream, Trim(input.fallbackModel));
    FirstApplyingIs(c, input.rules);
    RoutesInOrder(hit, if c.access(fallback) then Some(fallback) else None);
    forall i: nat | Chosen(c, input.rules, i) ensures hit == Some(TargetOfRule(input.rules[i])) {
      var j: nat :| Chosen(c, input.rules, j) && hit.value == (input.rules[j].upstream, Trim(input.rules[j].model));
      OneIsChosen(c, input.rules, i, j);
    }
  }

  /** From the administrator's form to a request, through saving and any ordered query. */
  lemma SavedRouteResolves(c: Context, db: Db, tenant: Id, name: string, input: RouteInput, result: seq<RouteRow>)
    requires Upsert(db, tenant, name, input).Ok?
    requires QueryResult(result, Upsert(db, tenant, name, input).value.routes, tenant)
    ensures var rows := Only(result, tenant, Trim(name));
            RoutedTo(c, input, Routes(FirstHit(c, rows), LastFallback(c, rows)))
  {
    SaveThenResolve(c, db, tenant, name, input, result);
    if input.allUsers || c.user in input.userIds {
      FirstIsRoutedTo(c, input);
      assert Permitted(c, input);
    }
  }

  lemma RoutesInOrder(hit: Option<Target>, fallback: Option<Target>)
    ensures hit.None? ==> Routes(hit, fallback) == if fallback.Some? then [fallback.value] else []
    ensures hit.Some? ==>
            Routes(hit, fallback) == [hit.value] + if fallback.Some? && fallback != hit then [fallback.value] else []
  {
  }

  /** Of several fallback rows the last one counts that the user may see and use. */
  lemma {:induction false} LastFallbackIs(c: Context, rows: seq<RouteRow>, i: nat)
    requires i < |rows| && rows[i].isFallback && Reachable(c, rows[i])
    requires forall j :: i < j < |rows| ==> !(rows[j].isFallback && Reachable(c, rows[j]))
    ensures LastFallback(c, rows) == Some((rows[i].upstream, rows[i].model))
  {
    var n := |rows| - 1;
    if i < n {
      assert rows[..n][i] == rows[i] && forall j :: i < j < n ==> rows[..n][j] == rows[j];
      LastFallbackIs(c, rows[..n], i);
    }
  }

  // ---------------------------------------------------------------- the other operations on routes

  ghost predicate HasRows(db: Db, tenant: Id, alias: string) {
    exists i :: 0 <= i < |db.routes| && db.routes[i].tenant == tenant && db.routes[i].alias == alias
  }

  /** When deleting a smart route or changing its users fails, and how. */
  lemma RouteOperationsFailIff(db: Db, tenant: Id, name: string, allUsers: bool, userIds: seq<Id>)
    ensures var deleted := DeleteRoute(db, tenant, name);
            && (deleted == Err(EmptyName) <==> Blank(name))
            && (deleted == Err(NotFound) <==> !Blank(name) && !HasRows(db, tenant, Trim(name)))
            && (deleted.Ok? <==> !Blank(name) && HasRows(db, tenant, Trim(name)))
    ensures var changed := SetRouteUsers(db, tenant, name, allUsers, userIds);
            var noUsers := !allUsers && userIds == [];
            && (changed == Err(EmptyName) <==> Blank(name))
            && (changed == Err(NoUsers) <==> !Blank(name) && noUsers)
            && (changed == Err(NotFound) <==> !Blank(name) && !noUsers && !HasRows(db, tenant, Trim(name)))
            && (changed.Ok? <==> !Blank(name) && !noUsers && HasRows(db, tenant, Trim(name)))
  {
    BlankIff(name);
    UsersAreListed(userIds);
  }

  lemma UsersAreListed(userIds: seq<Id>)
    ensures ToolCalls.SortedKeys(set i | 0 <= i < |userIds| :: userIds[i]) == [] <==> userIds == []
  {
    var users := set i | 0 <= i < |userIds| :: userIds[i];
    if userIds != [] {
      assert userIds[0] in users;
      assert userIds[0] in ToolCalls.SortedKeys(users);
    }
  }

  ghost predicate UsersSet(before: RouteRow, after: RouteRow, tenant: Id, alias: string, allUsers: bool,
                           userIds: seq<Id>, user: Id) {
    && after == before.(allUsers := after.allUsers, userIds := after.userIds)
    && if before.tenant == tenant && before.alias == alias then VisibleTo(after, user) == (allUsers || user in userIds)
       else after == before
  }

  /** Setting the users of a smart route changes who sees its rows, and nothing else. */
  lemma RouteUsersAreSet(db: Db, tenant: Id, name: string, allUsers: bool, userIds: seq<Id>, user: Id)
    requires SetRouteUsers(db, tenant, name, allUsers, userIds).Ok?
    ensures var routes, alias := SetRouteUsers(db, tenant, name, allUsers, userIds).value.routes, Trim(name);
            && |routes| == |db.routes|
            && forall i ::
                 0 <= i < |routes| ==> UsersSet(db.routes[i], routes[i], tenant, alias, allUsers, userIds, user)
  {
  }

  /** Deleting a smart route removes the rows of its name, and nothing else. */
  lemma {:induction false} DeletedRows(rows: seq<RouteRow>, tenant: Id, alias: string, row: RouteRow)
    ensures multiset(Without(rows, tenant, alias))[row] ==
            if row.tenant == tenant && row.alias == alias then 0 else multiset(rows)[row]
  {
    if rows == [] {
    } else {
      SplitLast(rows);
      DeletedRows(rows[..|rows| - 1], tenant, alias, row);
    }
  }
}
