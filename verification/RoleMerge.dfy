/** OpenAI requests in Anthropic form (src/proxy/upstream.rs, `convert_openai_to_anthropic_request`,
    `merge_consecutive_roles`). */
module RoleMerge {
  import opened Wrappers
  import opened Json
  import opened Text
  import opened ToolCalls

  datatype ImageSource = Base64(mediaType: string, data: string) | Url(url: string)

  datatype Block =
    | TextBlock(text: string)
    | ImageBlock(source: ImageSource)
    | ToolUse(id: string, name: string, input: Value)
    | ToolResult(toolUseId: string, content: Option<Content>, isError: Option<bool>)

  datatype Content = Plain(text: string) | Blocks(blocks: seq<Block>)

  datatype Message = Message(role: string, content: Content)

  function BlockTexts(blocks: seq<Block>): string {
    if blocks == [] then ""
    else
      var last := blocks[|blocks| - 1];
      BlockTexts(blocks[..|blocks| - 1]) + if last.TextBlock? then last.text else ""
  }

  function TextOnly(c: Content): string {
    if c.Plain? then c.text else BlockTexts(c.blocks)
  }

  function FromBlocks(blocks: seq<Block>): Content {
    if |blocks| == 1 && blocks[0].TextBlock? then Plain(blocks[0].text) else Blocks(blocks)
  }

  // ---------------------------------------------------------------- merging runs

  /** Maximal runs of messages with the same role, from left to right. */
  function Runs(ms: seq<Message>): seq<seq<Message>> {
    if ms == [] then []
    else
      var rs, m := Runs(ms[..|ms| - 1]), ms[|ms| - 1];
      if rs != [] && rs[|rs| - 1] != [] && rs[|rs| - 1][0].role == m.role
      then rs[..|rs| - 1] + [rs[|rs| - 1] + [m]]
      else rs + [[m]]
  }

  function Texts(ms: seq<Message>): seq<string> {
    seq(|ms|, i requires 0 <= i < |ms| => TextOnly(ms[i].content))
  }

  /** A run of one message is kept as it is; a longer run becomes one message of joined texts. */
  function Collapse(run: seq<Message>): Message
    requires run != []
  {
    if |run| == 1 then run[0] else Message(run[0].role, Plain(Join(Texts(run), "\n\n")))
  }

  ghost predicate Uniform(run: seq<Message>) {
    run != [] && forall j :: 0 <= j < |run| ==> run[j].role == run[0].role
  }

  ghost predicate Differ(a: seq<Message>, b: seq<Message>) {
    a != [] && b != [] && a[0].role != b[0].role
  }

  ghost predicate Grouped(rs: seq<seq<Message>>) {
    && (forall i :: 0 <= i < |rs| ==> Uniform(rs[i]))
    && (forall i, j :: 0 <= i < |rs| && 0 <= j < |rs| && j == i + 1 ==> Differ(rs[i], rs[j]))
  }

  lemma GroupedOfExtended(front: seq<seq<Message>>, run: seq<Message>, m: Message)
    requires run != [] && run[0].role == m.role && Grouped(front + [run])
    ensures Grouped(front + [run + [m]])
    ensures Concat(front + [run + [m]]) == Concat(front + [run]) + [m]
  {
    var before, after := front + [run], front + [run + [m]];
    assert forall i :: 0 <= i < |front| ==> before[i] == after[i];
    assert before[|front|] == run && after[|front|] == run + [m];
    ConcatSnoc(front, run);
    ConcatSnoc(front, run + [m]);
    Assoc(Concat(front), run, [m]);
  }

  lemma GroupedOfMore(rs: seq<seq<Message>>, run: seq<Message>)
    requires Grouped(rs) && Uniform(run) && (rs != [] ==> Differ(rs[|rs| - 1], run))
    ensures Grouped(rs + [run])
  {
    var rs' := rs + [run];
    forall i, j | 0 <= i < |rs'| && 0 <= j < |rs'| && j == i + 1 ensures Differ(rs'[i], rs'[j]) {
      assert rs'[i] == rs[i] && rs'[j] == if j < |rs| then rs[j] else run;
    }
  }

  lemma GroupedOfSnoc(rs: seq<seq<Message>>, m: Message)
    requires Grouped(rs) && (rs != [] ==> Differ(rs[|rs| - 1], [m]))
    ensures Grouped(rs + [[m]])
    ensures Concat(rs + [[m]]) == Concat(rs) + [m]
  {
    GroupedOfMore(rs, [m]);
    ConcatSnoc(rs, [m]);
  }

  /** The runs are the group-by of the messages: in order, uniform, and maximal. */
  lemma {:induction false} RunsGroup(ms: seq<Message>)
    ensures Concat(Runs(ms)) == ms && Grouped(Runs(ms))
  {
    if ms == [] {
    } else {
      var init, m := ms[..|ms| - 1], ms[|ms| - 1];
      var rs: seq<seq<Message>> := Runs(init);
      RunsGroup(init);
      SplitLast(ms);
      if rs != [] && rs[|rs| - 1][0].role == m.role {
        var k := |rs| - 1;
        assert rs == rs[..k] + [rs[k]];
        GroupedOfExtended(rs[..k], rs[k], m);
      } else {
        GroupedOfSnoc(rs, m);
      }
    }
  }

  function CollapseAll(rs: seq<seq<Message>>): seq<Message>
    requires forall i :: 0 <= i < |rs| ==> rs[i] != []
  {
    seq(|rs|, i requires 0 <= i < |rs| => Collapse(rs[i]))
  }

  function DropLeadingAssistant(ms: seq<Message>): seq<Message> {
    if ms != [] && ms[0].role == "assistant" then ms[1..] else ms
  }

  ghost function Collapsed(ms: seq<Message>): seq<Message> {
    RunsGroup(ms);
    CollapseAll(Runs(ms))
  }

  /** Group by runs, collapse each run, drop a leading assistant message. */
  ghost function Merged(ms: seq<Message>): seq<Message> {
    DropLeadingAssistant(Collapsed(ms))
  }

  lemma CollapseSnoc(run: seq<Message>, m: Message)
    requires run != []
    ensures Collapse(run + [m]) ==
            Message(run[0].role, Plain(TextOnly(Collapse(run).content) + "\n\n" + TextOnly(m.content)))
  {
    assert Texts(run + [m]) == Texts(run) + [TextOnly(m.content)];
    JoinSnoc(Texts(run), TextOnly(m.content), "\n\n");
  }

  lemma CollapsedOne(m: Message)
    ensures Collapsed([m]) == [m]
  {
    RunsGroup([m]);
    assert [m][..0] == [];
  }

  /** How one more message changes the collapsed runs. */
  lemma CollapsedSnoc(ms: seq<Message>, m: Message)
    requires ms != []
    ensures var before, after := Collapsed(ms), Collapsed(ms + [m]);
            && before != []
            && var last := before[|before| - 1];
               after == if last.role == m.role
                        then before[..|before| - 1] +
                            [Message(m.role, Plain(TextOnly(last.content) + "\n\n" + TextOnly(m.content)))]
                        else before + [m]
  {
    RunsGroup(ms);
    RunsGroup(ms + [m]);
    assert (ms + [m])[..|ms|] == ms;
    var rs: seq<seq<Message>> := Runs(ms);
    var front, run := rs[..|rs| - 1], rs[|rs| - 1];
    assert rs == front + [run];
    CollapseAllSnoc(front, run);
    if run[0].role == m.role {
      assert Runs(ms + [m]) == front + [run + [m]];
      CollapseAllSnoc(front, run + [m]);
      CollapseSnoc(run, m);
    } else {
      assert Runs(ms + [m]) == rs + [[m]];
      CollapseAllSnoc(rs, [m]);
    }
  }

  lemma CollapseAllSnoc(rs: seq<seq<Message>>, run: seq<Message>)
    requires run != [] && forall i :: 0 <= i < |rs| ==> rs[i] != []
    ensures CollapseAll(rs + [run]) == CollapseAll(rs) + [Collapse(run)]
  {
  }

  method MergeConsecutiveRoles(messages: seq<Message>) returns (result: seq<Message>)
    ensures result == Merged(messages)
  {
    if messages == [] {
      return messages;
    }
    result := [messages[0]];
    CollapsedOne(messages[0]);
    assert messages[..1] == [messages[0]];
    for i := 1 to |messages|
      invariant result == Collapsed(messages[..i]) && result != []
    {
      var msg, k := messages[i], |result| - 1;
      CollapsedSnoc(messages[..i], msg);
      assert messages[..i + 1] == messages[..i] + [msg];
      if result[k].role == msg.role {
        var merged := TextOnly(result[k].content) + "\n\n" + TextOnly(msg.content);
        result := result[k := result[k].(content := Plain(merged))];
        continue;
      }
      result := result + [msg];
    }
    assert messages[..|messages|] == messages;
    if result[0].role == "assistant" {
      result := result[1..];
    }
  }

  // ---------------------------------------------------------------- what merging guarantees

  ghost predicate Alternating(ms: seq<Message>) {
    forall i, j :: 0 <= i < |ms| && 0 <= j < |ms| && j == i + 1 ==> ms[i].role != ms[j].role
  }

  /** The output never repeats a role and never opens with the assistant. */
  lemma MergedAlternates(ms: seq<Message>)
    ensures Alternating(Merged(ms))
    ensures Merged(ms) != [] ==> Merged(ms)[0].role != "assistant"
  {
    RunsGroup(ms);
    assert Alternating(Collapsed(ms));
  }

  function Singles(ms: seq<Message>): seq<seq<Message>> {
    seq(|ms|, i requires 0 <= i < |ms| => [ms[i]])
  }

  lemma {:induction false} AlternatingRunsAreSingletons(ms: seq<Message>)
    requires Alternating(ms)
    ensures Runs(ms) == Singles(ms)
  {
    if ms == [] {
    } else {
      var init, m := ms[..|ms| - 1], ms[|ms| - 1];
      AlternatingRunsAreSingletons(init);
      assert Singles(ms) == Singles(init) + [[m]];
    }
  }

  /** Messages that already alternate are kept one by one, whatever blocks they hold. */
  lemma MergedKeepsAlternating(ms: seq<Message>)
    requires Alternating(ms)
    ensures Merged(ms) == DropLeadingAssistant(ms)
  {
    RunsGroup(ms);
    AlternatingRunsAreSingletons(ms);
    assert CollapseAll(Singles(ms)) == ms;
  }

  lemma MergingIsIdempotent(ms: seq<Message>)
    ensures Merged(Merged(ms)) == Merged(ms)
  {
    MergedAlternates(ms);
    MergedKeepsAlternating(Merged(ms));
  }
}
