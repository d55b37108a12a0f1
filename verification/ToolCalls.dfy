/** Reassembly of streamed tool calls (src/proxy/handlers.rs, `parse_openai_sse_body`). */
module ToolCalls {
  import opened Wrappers
  import opened Json
  import opened Text

  datatype ToolCall = ToolCall(id: string, name: string, arguments: string)

  /** One element of a streamed `tool_calls` array. */
  datatype Fragment = Fragment(index: nat, id: Option<string>, name: Option<string>, arguments: Option<string>)

  function FunctionStr(tc: Value, key: string): Option<string> {
    var f :- tc.Get("function");
    f.GetStr(key)
  }

  function IndexOf(tc: Value): Option<nat> {
    var v :- tc.Get("index");
    v.AsU64()
  }

  function FragmentOf(tc: Value): Fragment {
    Fragment(IndexOf(tc).GetOr(0), tc.GetStr("id"), FunctionStr(tc, "name"), FunctionStr(tc, "arguments"))
  }

  const NO_CALL := ToolCall("", "", "")

  function Merge(call: ToolCall, f: Fragment): ToolCall {
    ToolCall(f.id.GetOr(call.id), f.name.GetOr(call.name), call.arguments + f.arguments.GetOr(""))
  }

  /** The table entry of a fragment's index is created if missing, then updated. */
  function Accept(table: map<nat, ToolCall>, f: Fragment): map<nat, ToolCall> {
    table[f.index := Merge(if f.index in table then table[f.index] else NO_CALL, f)]
  }

  function Table(frags: seq<Fragment>): map<nat, ToolCall> {
    if frags == [] then map[] else Accept(Table(frags[..|frags| - 1]), frags[|frags| - 1])
  }

  predicate IsLeast(keys: set<nat>, least: nat) {
    least in keys && forall k :: k in keys ==> least <= k
  }

  lemma {:induction false} LeastExists(keys: set<nat>)
    requires keys != {}
    ensures exists least :: IsLeast(keys, least)
  {
    var x :| x in keys;
    if keys == {x} {
      assert IsLeast(keys, x);
    } else {
      LeastExists(keys - {x});
      var y :| IsLeast(keys - {x}, y);
      LeastOfMore(keys, x, y);
    }
  }

  lemma LeastOfMore(keys: set<nat>, x: nat, y: nat)
    requires x in keys && IsLeast(keys - {x}, y)
    ensures IsLeast(keys, if x <= y then x else y)
  {
    forall k | k in keys ensures (if x <= y then x else y) <= k {
      assert k == x || k in keys - {x};
    }
  }

  /** The keys of the table in ascending order. */
  function SortedKeys(keys: set<nat>): (sorted: seq<nat>)
    ensures forall k :: k in sorted <==> k in keys
    ensures forall i, j :: 0 <= i < j < |sorted| ==> sorted[i] < sorted[j]
  {
    if keys == {} then []
    else
      LeastExists(keys);
      var least :| IsLeast(keys, least);
      [least] + SortedKeys(keys - {least})
  }

  function CallsFor(table: map<nat, ToolCall>, keys: seq<nat>): seq<ToolCall>
    requires forall i :: 0 <= i < |keys| ==> keys[i] in table
  {
    seq(|keys|, i requires 0 <= i < |keys| => table[keys[i]])
  }

  function CallsOf(table: map<nat, ToolCall>): seq<ToolCall> {
    var keys := SortedKeys(table.Keys);
    assert forall i :: 0 <= i < |keys| ==> keys[i] in keys;
    CallsFor(table, keys)
  }

  // ---------------------------------------------------------------- what reassembly means

  /** The fragments of one call, in arrival order. */
  function Only(frags: seq<Fragment>, index: nat): seq<Fragment> {
    if frags == [] then []
    else
      var last := frags[|frags| - 1];
      Only(frags[..|frags| - 1], index) + if last.index == index then [last] else []
  }

  function LastId(frags: seq<Fragment>): string {
    if frags == [] then "" else frags[|frags| - 1].id.GetOr(LastId(frags[..|frags| - 1]))
  }

  function LastName(frags: seq<Fragment>): string {
    if frags == [] then "" else frags[|frags| - 1].name.GetOr(LastName(frags[..|frags| - 1]))
  }

  function Arguments(frags: seq<Fragment>): seq<string> {
    seq(|frags|, i requires 0 <= i < |frags| => frags[i].arguments.GetOr(""))
  }

  /** The last id, the last name and all arguments in order. */
  function Whole(frags: seq<Fragment>): ToolCall {
    ToolCall(LastId(frags), LastName(frags), Concat(Arguments(frags)))
  }

  lemma WholeOfSnoc(frags: seq<Fragment>, f: Fragment)
    ensures Whole(frags + [f]) == Merge(Whole(frags), f)
  {
    assert (frags + [f])[..|frags|] == frags;
    assert Arguments(frags + [f]) == Arguments(frags) + [f.arguments.GetOr("")];
    ConcatSnoc(Arguments(frags), f.arguments.GetOr(""));
  }

  lemma {:induction false} TableIsWholes(frags: seq<Fragment>, index: nat)
    ensures index in Table(frags) <==> Only(frags, index) != []
    ensures index in Table(frags) ==> Table(frags)[index] == Whole(Only(frags, index))
  {
    if frags == [] {
    } else {
      var init, last := frags[..|frags| - 1], frags[|frags| - 1];
      TableIsWholes(init, index);
      if last.index == index {
        WholeOfSnoc(Only(init, index), last);
        assert Only(init, index) == [] ==> Whole(Only(init, index)) == NO_CALL;
      } else {
        assert Only(init, index) + [] == Only(init, index);
      }
    }
  }

  /** Reassembly in closed form: one call per index that occurs, strictly ascending by index, made of
      that index's fragments alone. */
  lemma ReassemblyIsPerIndex(frags: seq<Fragment>)
    ensures var table := Table(frags);
            var keys := SortedKeys(table.Keys);
            && (forall k: nat :: k in keys <==> exists i :: 0 <= i < |frags| && frags[i].index == k)
            && (forall i, j :: 0 <= i < j < |keys| ==> keys[i] < keys[j])
            && |CallsOf(table)| == |keys|
            && forall i :: 0 <= i < |keys| ==> CallsOf(table)[i] == Whole(Only(frags, keys[i]))
  {
    var table := Table(frags);
    var keys := SortedKeys(table.Keys);
    forall k: nat ensures k in keys <==> exists i :: 0 <= i < |frags| && frags[i].index == k {
      TableIsWholes(frags, k);
      OnlyIsEmptyIffAbsent(frags, k);
    }
    forall i | 0 <= i < |keys| ensures CallsOf(table)[i] == Whole(Only(frags, keys[i])) {
      assert keys[i] in keys;
      TableIsWholes(frags, keys[i]);
    }
  }

  lemma {:induction false} OnlyIsEmptyIffAbsent(frags: seq<Fragment>, index: nat)
    ensures Only(frags, index) != [] <==> exists i :: 0 <= i < |frags| && frags[i].index == index
  {
    if frags == [] {
    } else {
      var init := frags[..|frags| - 1];
      OnlyIsEmptyIffAbsent(init, index);
      if i :| 0 <= i < |init| && init[i].index == index {
        assert frags[i].index == index;
      }
      assert forall i :: 0 <= i < |init| ==> frags[i] == init[i];
    }
  }

  /** Two interleavings of the same per-index fragment streams give the same calls. */
  lemma InterleavingDoesNotMatter(a: seq<Fragment>, b: seq<Fragment>)
    requires forall index: nat :: Only(a, index) == Only(b, index)
    ensures CallsOf(Table(a)) == CallsOf(Table(b))
  {
    forall index: nat
      ensures index in Table(a) <==> index in Table(b)
      ensures index in Table(a) ==> Table(a)[index] == Table(b)[index]
    {
      TableIsWholes(a, index);
      TableIsWholes(b, index);
    }
    assert Table(a) == Table(b);
  }

  lemma {:induction false} OnlyOfConcat(a: seq<Fragment>, b: seq<Fragment>, index: nat)
    ensures Only(a + b, index) == Only(a, index) + Only(b, index)
  {
    if b == [] {
      assert a + b == a;
    } else {
      assert (a + b)[..|a + b| - 1] == a + b[..|b| - 1];
      OnlyOfConcat(a, b[..|b| - 1], index);
    }
  }

  lemma TableOfFreshRun(before: seq<Fragment>, run: seq<Fragment>, index: nat)
    requires index !in Table(before)
    requires run != [] && Only(run, index) == run
    requires forall k: nat :: k != index ==> Only(run, k) == []
    ensures Table(before + run) == Table(before)[index := Whole(run)]
  {
    var table := Table(before)[index := Whole(run)];
    forall k: nat
      ensures k in Table(before + run) <==> k in table
      ensures k in table ==> Table(before + run)[k] == table[k]
    {
      TableIsWholes(before + run, k);
      TableIsWholes(before, k);
      OnlyOfConcat(before, run, k);
      assert k == index ==> Only(before, k) + run == run;
      assert k != index ==> Only(before, k) + [] == Only(before, k);
    }
  }

  lemma SortedKeysOfNonempty(keys: set<nat>, least: nat)
    requires IsLeast(keys, least)
    ensures SortedKeys(keys) == [least] + SortedKeys(keys - {least})
  {
  }

  lemma SortedKeysStep(keys: set<nat>, index: nat, least: nat)
    requires IsLeast(keys, least) && least < index
    ensures SortedKeys(keys + {index}) == [least] + SortedKeys((keys - {least}) + {index})
  {
    SwapSets(keys, index, least);
    SortedKeysOfNonempty(keys + {index}, least);
  }

  lemma SwapSets(keys: set<nat>, index: nat, least: nat)
    requires IsLeast(keys, least) && least < index
    ensures IsLeast(keys + {index}, least)
    ensures keys + {index} - {least} == (keys - {least}) + {index}
  {
  }

  lemma SortedKeysOfOne(index: nat)
    ensures SortedKeys({index}) == [index]
  {
    SortedKeysOfNonempty({index}, index);
    assert {index} - {index} == {};
  }

  lemma {:induction false} SortedKeysOfLargest(keys: set<nat>, index: nat)
    requires forall k :: k in keys ==> k < index
    ensures SortedKeys(keys + {index}) == SortedKeys(keys) + [index]
  {
    if keys == {} {
      SortedKeysOfOne(index);
      assert keys + {index} == {index};
    } else {
      LeastExists(keys);
      var least :| IsLeast(keys, least);
      var rest := keys - {least};
      SortedKeysStep(keys, index, least);
      SortedKeysOfLargest(rest, index);
      SortedKeysOfNonempty(keys, least);
      Assoc([least], SortedKeys(rest), [index]);
    }
  }

  lemma CallsForSnoc(table: map<nat, ToolCall>, keys: seq<nat>, index: nat, call: ToolCall)
    requires forall i :: 0 <= i < |keys| ==> keys[i] in table && keys[i] != index
    ensures CallsFor(table[index := call], keys + [index]) == CallsFor(table, keys) + [call]
  {
  }

  lemma KeysAreListed(table: map<nat, ToolCall>, index: nat, call: ToolCall)
    requires forall k :: k in table ==> k < index
    ensures var keys := SortedKeys(table.Keys);
            forall i :: 0 <= i < |keys| ==> keys[i] in table && keys[i] != index
    ensures table[index := call].Keys == table.Keys + {index}
  {
    var keys := SortedKeys(table.Keys);
    assert forall i :: 0 <= i < |keys| ==> keys[i] in keys;
  }

  lemma CallsOfFreshKey(table: map<nat, ToolCall>, index: nat, call: ToolCall)
    requires forall k :: k in table ==> k < index
    ensures CallsOf(table[index := call]) == CallsOf(table) + [call]
  {
    KeysAreListed(table, index, call);
    SortedKeysOfLargest(table.Keys, index);
    CallsForSnoc(table, SortedKeys(table.Keys), index, call);
  }

  /** A call whose index exceeds all earlier ones is appended to the reassembled calls. */
  lemma FreshRun(before: seq<Fragment>, run: seq<Fragment>, index: nat)
    requires forall k :: k in Table(before) ==> k < index
    requires run != [] && Only(run, index) == run
    requires forall k: nat :: k != index ==> Only(run, k) == []
    ensures Table(before + run) == Table(before)[index := Whole(run)]
    ensures CallsOf(Table(before + run)) == CallsOf(Table(before)) + [Whole(run)]
  {
    TableOfFreshRun(before, run, index);
    CallsOfFreshKey(Table(before), index, Whole(run));
  }
}
