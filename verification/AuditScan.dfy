/** The paged scan of the proxy log (src/audit/handlers.rs, `scan_filtered_proxy_logs`). */
module AuditScan {
  import opened Wrappers
  import opened Text

  type Id = nat

  datatype Log = Log(id: Id, userId: Id, model: string, detail: string)

  datatype Enriched = Enriched(log: Log, content: Option<string>, username: Option<string>,
                               display: (Option<string>, string))

  /** The lookups of `enrich_proxy_log`, lower-casing, and the texts of an entry that a keyword is looked for
      in: its fields that are present, and roles and contents of its messages. All are left open. */
  datatype Env = Env(
    usernameOf: Id -> Option<string>, displayOf: string -> (Option<string>, string), contentOf: Id -> Option<string>,
    lower: string -> string, texts: Enriched -> seq<string>)

  /** The two text filters of a request. */
  datatype AuditQuery = AuditQuery(username: Option<string>, keyword: Option<string>)

  /** The filters as they are applied; absent when blank. */
  datatype Filters = Filters(username: Option<string>, keyword: Option<string>)

  function Unless(s: string): Option<string> {
    if s == "" then None else Some(s)
  }

  function FiltersOf(env: Env, q: AuditQuery): Filters {
    Filters(if q.username.Some? then Unless(env.lower(Trim(q.username.value))) else None,
            if q.keyword.Some? then Unless(Trim(q.keyword.value)) else None)
  }

  predicate MatchesKeyword(env: Env, e: Enriched, keyword: string) {
    var needle, texts := env.lower(Trim(keyword)), env.texts(e);
    needle == "" || exists i | 0 <= i < |texts| :: Contains(env.lower(texts[i]), needle)
  }

  const BATCH_SIZE: nat := 1000

  function Enrich(env: Env, log: Log): Enriched {
    Enriched(log, env.contentOf(log.id), env.usernameOf(log.userId), env.displayOf(log.model))
  }

  predicate Passes(env: Env, f: Filters, e: Enriched) {
    && (f.username.Some? ==> env.lower(e.username.GetOr("")) == f.username.value)
    && (f.keyword.Some? ==> MatchesKeyword(env, e, f.keyword.value))
  }

  /** The plain filter: enrich every row of the table and keep what passes. */
  function Matching(env: Env, f: Filters, table: seq<Log>): seq<Enriched> {
    if table == [] then []
    else
      var e := Enrich(env, table[|table| - 1]);
      Matching(env, f, table[..|table| - 1]) + if Passes(env, f, e) then [e] else []
  }

  function Min(a: nat, b: nat): nat {
    if a < b then a else b
  }

  function Slice<T>(xs: seq<T>, start: nat, end: nat): seq<T>
    requires start <= end
  {
    xs[Min(start, |xs|)..Min(end, |xs|)]
  }

  function PageStart(page: nat, pageSize: nat): nat {
    (if page == 0 then 0 else page - 1) * pageSize
  }

  /** One page (number and size) of a list, or the whole list. */
  function PageOf<T>(xs: seq<T>, page: Option<(nat, nat)>): seq<T> {
    if page.None? then xs
    else Slice(xs, PageStart(page.value.0, page.value.1), PageStart(page.value.0, page.value.1) + page.value.1)
  }

  /** `LIMIT ? OFFSET ?` on the ordered rows. */
  function Query(table: seq<Log>, offset: nat, limit: nat): seq<Log> {
    Slice(table, offset, offset + limit)
  }

  /** The memo tables never hold anything but what the lookup would return. */
  ghost predicate Faithful<K, V>(cache: map<K, V>, lookup: K -> V) {
    forall k :: k in cache ==> cache[k] == lookup(k)
  }

  method EnrichCached(env: Env, log: Log, names: map<Id, Option<string>>, models: map<string, (Option<string>, string)>)
    returns (e: Enriched, names': map<Id, Option<string>>, models': map<string, (Option<string>, string)>)
    requires Faithful(names, env.usernameOf) && Faithful(models, env.displayOf)
    ensures e == Enrich(env, log)
    ensures Faithful(names', env.usernameOf) && Faithful(models', env.displayOf)
  {
    names', models' := names, models;
    if log.userId !in names' {
      names' := names'[log.userId := env.usernameOf(log.userId)];
    }
    if log.model !in models' {
      models' := models'[log.model := env.displayOf(log.model)];
    }
    e := Enriched(log, env.contentOf(log.id), names'[log.userId], models'[log.model]);
  }

  lemma SliceSnoc<T>(xs: seq<T>, x: T, start: nat, end: nat)
    requires start <= end
    ensures Slice(xs + [x], start, end) == Slice(xs, start, end) + if start <= |xs| < end then [x] else []
  {
  }

  lemma PageSnoc<T>(xs: seq<T>, x: T, page: Option<(nat, nat)>)
    ensures PageOf(xs + [x], page) == PageOf(xs, page) +
            if page.None?
                || PageStart(page.value.0, page.value.1) <= |xs| < PageStart(page.value.0, page.value.1) + page.value.1
            then [x] else []
  {
    if page.Some? {
      var start := PageStart(page.value.0, page.value.1);
      SliceSnoc(xs, x, start, start + page.value.1);
    }
  }

  /** One row of a batch: counted if it passes, kept if it also falls on the page. */
  method ScanRow(env: Env, f: Filters, e: Enriched, page: Option<(nat, nat)>, total: nat, items: seq<Enriched>,
                 ghost seen: seq<Log>, ghost log: Log)
    returns (total': nat, items': seq<Enriched>)
    requires e == Enrich(env, log)
    requires total == |Matching(env, f, seen)| && items == PageOf(Matching(env, f, seen), page)
    ensures total' == |Matching(env, f, seen + [log])| && items' == PageOf(Matching(env, f, seen + [log]), page)
  {
    assert (seen + [log])[..|seen|] == seen;
    PageSnoc(Matching(env, f, seen), e, page);
    assert Matching(env, f, seen) + [] == Matching(env, f, seen);
    total', items' := total, items;
    if f.username.Some? && env.lower(e.username.GetOr("")) != f.username.value {
      return;
    }
    if f.keyword.Some? && !MatchesKeyword(env, e, f.keyword.value) {
      return;
    }
    var currentIndex := total;
    total' := total + 1;
    if page.Some? {
      var start := PageStart(page.value.0, page.value.1);
      if start <= currentIndex < start + page.value.1 {
        items' := items + [e];
      }
    } else {
      items' := items + [e];
    }
  }

  method ScanBatch(env: Env, f: Filters, batch: seq<Log>, page: Option<(nat, nat)>, total: nat, items: seq<Enriched>,
                   names: map<Id, Option<string>>, models: map<string, (Option<string>, string)>, ghost seen: seq<Log>)
    returns (total': nat, items': seq<Enriched>, names': map<Id, Option<string>>,
             models': map<string, (Option<string>, string)>)
    requires Faithful(names, env.usernameOf) && Faithful(models, env.displayOf)
    requires total == |Matching(env, f, seen)| && items == PageOf(Matching(env, f, seen), page)
    ensures Faithful(names', env.usernameOf) && Faithful(models', env.displayOf)
    ensures total' == |Matching(env, f, seen + batch)| && items' == PageOf(Matching(env, f, seen + batch), page)
  {
    total', items', names', models' := total, items, names, models;
    assert seen + batch[..0] == seen;
    for i := 0 to |batch|
      invariant total' == |Matching(env, f, seen + batch[..i])|
                && items' == PageOf(Matching(env, f, seen + batch[..i]), page)
      invariant Faithful(names', env.usernameOf) && Faithful(models', env.displayOf)
    {
      var e;
      e, names', models' := EnrichCached(env, batch[i], names', models');
      TakeSnoc(batch, i);
      Assoc(seen, batch[..i], [batch[i]]);
      total', items' := ScanRow(env, f, e, page, total', items', seen + batch[..i], batch[i]);
    }
    assert batch[..|batch|] == batch;
  }

  /** A batch is the next stretch of the table; a short one reaches its end. */
  lemma BatchIsNext(table: seq<Log>, offset: nat, limit: nat)
    requires offset <= |table| && limit > 0
    ensures var batch := Query(table, offset, limit);
            && offset + |batch| <= |table| && |batch| <= limit
            && table[..offset + |batch|] == table[..offset] + batch
            && (|batch| < limit ==> table[..offset + |batch|] == table)
  {
  }

  /** On a fixed table the batched scan counts and pages exactly what the plain filter finds. */
  method ScanFilteredProxyLogs(env: Env, q: AuditQuery, table: seq<Log>, page: Option<(nat, nat)>)
    returns (total: nat, items: seq<Enriched>)
    ensures total == |Matching(env, FiltersOf(env, q), table)|
    ensures items == PageOf(Matching(env, FiltersOf(env, q), table), page)
  {
    var f := FiltersOf(env, q);
    var names: map<Id, Option<string>>, models: map<string, (Option<string>, string)> := map[], map[];
    total, items := 0, [];
    var offset := 0;
    assert table[..0] == [];
    while true
      invariant offset <= |table|
      invariant total == |Matching(env, f, table[..offset])| && items == PageOf(Matching(env, f, table[..offset]), page)
      invariant Faithful(names, env.usernameOf) && Faithful(models, env.displayOf)
      decreases |table| - offset
    {
      var batch := Query(table, offset, BATCH_SIZE);
      BatchIsNext(table, offset, BATCH_SIZE);
      if batch == [] {
        break;
      }
      total, items, names, models := ScanBatch(env, f, batch, page, total, items, names, models, table[..offset]);
      offset := offset + |batch|;
      if |batch| < BATCH_SIZE {
        break;
      }
    }
    assert table[..offset] == table;
  }

  // ---------------------------------------------------------------- what the filters mean

  /** The entry is by the user asked for, and some text of it contains the keyword, both up to case and to white
      space around what was entered; what is blank asks for nothing. */
  ghost predicate Wanted(env: Env, q: AuditQuery, e: Enriched) {
    && (q.username.Some? && env.lower(Trim(q.username.value)) != "" ==>
          env.lower(if e.username.Some? then e.username.value else "") == env.lower(Trim(q.username.value)))
    && (q.keyword.Some? && Trim(q.keyword.value) != "" && env.lower(Trim(q.keyword.value)) != "" ==>
          exists text :: text in env.texts(e) && Occurs(env.lower(Trim(q.keyword.value)), env.lower(text)))
  }

  lemma KeywordIff(env: Env, e: Enriched, keyword: string)
    ensures MatchesKeyword(env, e, Trim(keyword)) <==>
            env.lower(Trim(keyword)) == ""
            || exists text :: text in env.texts(e) && Occurs(env.lower(Trim(keyword)), env.lower(text))
  {
    var pre, post := TrimSplits(keyword);
    TrimOfTrimmed(Trim(keyword));
    var needle, texts := env.lower(Trim(keyword)), env.texts(e);
    forall text: string ensures Contains(env.lower(text), needle) <==> Occurs(needle, env.lower(text)) {
      ContainsIff(env.lower(text), needle);
    }
    if text :| text in texts && Occurs(needle, env.lower(text)) {
      var i :| 0 <= i < |texts| && texts[i] == text;
      assert Contains(env.lower(texts[i]), needle);
    }
  }

  lemma PassesIff(env: Env, q: AuditQuery, e: Enriched)
    ensures Passes(env, FiltersOf(env, q), e) <==> Wanted(env, q, e)
  {
    if q.keyword.Some? {
      KeywordIff(env, e, q.keyword.value);
    }
  }

  /** The entry of a row: the row with its content, the name of its user, and the names of its model. */
  ghost predicate IsEntryOf(env: Env, e: Enriched, log: Log) {
    && e.log == log && e.content == env.contentOf(log.id)
    && e.username == env.usernameOf(log.userId) && e.display == env.displayOf(log.model)
  }

  ghost function WantedRows(env: Env, q: AuditQuery, table: seq<Log>): set<nat> {
    set i: nat | i < |table| && Wanted(env, q, Enrich(env, table[i]))
  }

  /** What is counted and listed are exactly the entries of the rows that are wanted. */
  lemma {:induction false} ListedIffWanted(env: Env, q: AuditQuery, table: seq<Log>)
    ensures var found := Matching(env, FiltersOf(env, q), table);
            && |found| == |WantedRows(env, q, table)|
            && forall e :: e in found <==> WantedFrom(env, q, table, e)
  {
    if table == [] {
      assert WantedRows(env, q, table) == {};
    } else {
      var init, last := table[..|table| - 1], table[|table| - 1];
      SplitLast(table);
      ListedIffWanted(env, q, init);
      PassesIff(env, q, Enrich(env, last));
      WantedRowsSnoc(env, q, init, last);
      forall e ensures WantedFrom(env, q, table, e) <==>
                       WantedFrom(env, q, init, e) || (e == Enrich(env, last) && Wanted(env, q, e)) {
        WantedSnoc(env, q, init, last, e);
      }
    }
  }

  ghost predicate WantedFrom(env: Env, q: AuditQuery, table: seq<Log>, e: Enriched) {
    exists i :: 0 <= i < |table| && IsEntryOf(env, e, table[i]) && Wanted(env, q, e)
  }

  lemma WantedSnoc(env: Env, q: AuditQuery, table: seq<Log>, log: Log, e: Enriched)
    ensures WantedFrom(env, q, table + [log], e) <==>
            WantedFrom(env, q, table, e) || (e == Enrich(env, log) && Wanted(env, q, e))
  {
    var more := table + [log];
    assert more[|table|] == log;
    if WantedFrom(env, q, table, e) {
      var i :| 0 <= i < |table| && IsEntryOf(env, e, table[i]) && Wanted(env, q, e);
      assert more[i] == table[i];
    }
    if WantedFrom(env, q, more, e) {
      var i :| 0 <= i < |more| && IsEntryOf(env, e, more[i]) && Wanted(env, q, e);
      assert i < |table| ==> more[i] == table[i];
    }
    assert e == Enrich(env, log) <==> IsEntryOf(env, e, log);
  }

  lemma WantedRowsSnoc(env: Env, q: AuditQuery, table: seq<Log>, log: Log)
    ensures WantedRows(env, q, table + [log]) ==
            WantedRows(env, q, table) + if Wanted(env, q, Enrich(env, log)) then {|table|} else {}
    ensures |table| !in WantedRows(env, q, table)
  {
    assert forall i :: 0 <= i < |table| ==> (table + [log])[i] == table[i];
  }

  // ---------------------------------------------------------------- all pages together

  function Pages<T>(xs: seq<T>, pageSize: nat, count: nat): seq<seq<T>> {
    seq(count, p requires 0 <= p < count => PageOf(xs, Some((p + 1, pageSize))))
  }

  lemma SliceExtends<T>(xs: seq<T>, a: nat, b: nat)
    requires a <= b
    ensures xs[..Min(a, |xs|)] + Slice(xs, a, b) == xs[..Min(b, |xs|)]
  {
  }

  /** The number of rows on the first pages. */
  function Rows(pages: nat, pageSize: nat): nat {
    if pages == 0 then 0 else Rows(pages - 1, pageSize) + pageSize
  }

  lemma {:induction false} RowsMultiply(pages: nat, pageSize: nat)
    ensures Rows(pages, pageSize) == pages * pageSize
  {
    if pages == 0 {
    } else {
      RowsMultiply(pages - 1, pageSize);
      assert (pages - 1) * pageSize + pageSize == pages * pageSize;
    }
  }

  lemma {:induction false} RowsGrow(pages: nat, more: nat, pageSize: nat)
    requires pages <= more
    ensures Rows(pages, pageSize) <= Rows(more, pageSize)
    decreases more
  {
    if pages < more {
      RowsGrow(pages, more - 1, pageSize);
    }
  }

  lemma PageIsSlice<T>(xs: seq<T>, page: nat, pageSize: nat)
    ensures PageOf(xs, Some((page + 1, pageSize))) == Slice(xs, Rows(page, pageSize), Rows(page + 1, pageSize))
  {
    RowsMultiply(page, pageSize);
    assert PageStart(page + 1, pageSize) == page * pageSize;
  }

  lemma PagesSnoc<T>(xs: seq<T>, pageSize: nat, count: nat)
    requires count > 0
    ensures Concat(Pages(xs, pageSize, count)) ==
            Concat(Pages(xs, pageSize, count - 1)) + Slice(xs, Rows(count - 1, pageSize), Rows(count, pageSize))
  {
    var last := PageOf(xs, Some((count, pageSize)));
    PageIsSlice(xs, count - 1, pageSize);
    ConcatSnoc(Pages(xs, pageSize, count - 1), last);
    assert Pages(xs, pageSize, count) == Pages(xs, pageSize, count - 1) + [last];
  }

  lemma {:induction false} FirstPages<T>(xs: seq<T>, pageSize: nat, count: nat)
    ensures Concat(Pages(xs, pageSize, count)) == xs[..Min(Rows(count, pageSize), |xs|)]
  {
    if count == 0 {
    } else {
      FirstPages(xs, pageSize, count - 1);
      PagesSnoc(xs, pageSize, count);
      SliceExtends(xs, Rows(count - 1, pageSize), Rows(count, pageSize));
    }
  }

  lemma LatePageIsEmpty<T>(xs: seq<T>, pageSize: nat, count: nat, page: nat)
    requires Rows(count, pageSize) >= |xs| && page >= count
    ensures PageOf(xs, Some((page + 1, pageSize))) == []
  {
    PageIsSlice(xs, page, pageSize);
    RowsGrow(count, page, pageSize);
    RowsGrow(page, page + 1, pageSize);
  }

  /** Enough pages, one after the other, give the unpaged list; every later page is empty. */
  lemma PagesMakeTheExport<T>(xs: seq<T>, pageSize: nat, count: nat)
    requires count * pageSize >= |xs|
    ensures Concat(Pages(xs, pageSize, count)) == PageOf(xs, None)
    ensures forall page: nat :: page > count ==> PageOf(xs, Some((page, pageSize))) == []
  {
    FirstPages(xs, pageSize, count);
    RowsMultiply(count, pageSize);
    forall page: nat | page > count ensures PageOf(xs, Some((page, pageSize))) == [] {
      LatePageIsEmpty(xs, pageSize, count, page - 1);
    }
  }
}
