/** An assistant message on its way to an Anthropic upstream and back
    (src/proxy/upstream.rs, `convert_openai_to_anthropic_request`, `convert_anthropic_to_openai_response`). */
module AssistantRoundTrip {
  import opened Wrappers
  import opened Json
  import opened Text
  import opened ToolCalls
  import opened SseBody
  import opened AnthropicConvert
  import AnthropicAgreement
  import opened RoleMerge
  import opened RequestConvert

  predicate TextOrTool(b: Block) {
    b.TextBlock? || b.ToolUse?
  }

  /** The wire form of the blocks an assistant message is made of. */
  function BlockJson(b: Block): Value
    requires TextOrTool(b)
  {
    match b
    case TextBlock(text) => Obj(map["type" := Str("text"), "text" := Str(text)])
    case ToolUse(id, name, input) =>
      Obj(map["type" := Str("tool_use"), "id" := Str(id), "name" := Str(name), "input" := input])
  }

  ghost predicate AllTextOrTool(blocks: seq<Block>) {
    forall i :: 0 <= i < |blocks| ==> TextOrTool(blocks[i])
  }

  function BlocksJson(blocks: seq<Block>): seq<Value>
    requires forall i :: 0 <= i < |blocks| ==> TextOrTool(blocks[i])
  {
    seq(|blocks|, i requires 0 <= i < |blocks| => BlockJson(blocks[i]))
  }

  /** The content blocks of an answer that repeats a message; a plain text is one text block. */
  function Echo(c: Content): seq<Value>
    requires c.Blocks? ==> forall i :: 0 <= i < |c.blocks| ==> TextOrTool(c.blocks[i])
  {
    if c.Plain? then [BlockJson(TextBlock(c.text))] else BlocksJson(c.blocks)
  }

  /** A call whose arguments are read as JSON, an empty object if they are not, and printed again. */
  function Reprinted(parse: Parser, toText: Printer, call: ToolCall): ToolCall {
    call.(arguments := toText(parse(call.arguments).GetOr(Obj(map[]))))
  }

  function AllReprinted(parse: Parser, toText: Printer, calls: seq<ToolCall>): seq<ToolCall> {
    seq(|calls|, i requires 0 <= i < |calls| => Reprinted(parse, toText, calls[i]))
  }

  lemma PartsOfSnoc(blocks: seq<Value>, b: Value, toText: Printer)
    ensures AllText(blocks + [b]) == AllText(blocks) + BlockText(b)
    ensures AllThinking(blocks + [b]) == AllThinking(blocks) + BlockThinking(b)
    ensures AllCalls(blocks + [b], toText) == AllCalls(blocks, toText) + BlockCall(b, toText)
  {
    assert (blocks + [b])[..|blocks|] == blocks;
  }

  lemma OneUseReads(parse: Parser, toText: Printer, call: ToolCall)
    ensures var b := BlockJson(ToolUse(call.id, call.name, parse(call.arguments).GetOr(Obj(map[]))));
            BlockText(b) == "" && BlockThinking(b) == "" && BlockCall(b, toText) == [Reprinted(parse, toText, call)]
  {
  }

  lemma UsesOfSnoc(parse: Parser, toText: Printer, calls: seq<ToolCall>, call: ToolCall)
    ensures BlocksJson(ToolUses(parse, calls + [call])) ==
            BlocksJson(ToolUses(parse, calls)) +
                [BlockJson(ToolUse(call.id, call.name, parse(call.arguments).GetOr(Obj(map[]))))]
    ensures AllReprinted(parse, toText, calls + [call]) ==
            AllReprinted(parse, toText, calls) + [Reprinted(parse, toText, call)]
  {
  }

  lemma {:induction false} UsesRead(parse: Parser, toText: Printer, head: seq<Value>, calls: seq<ToolCall>)
    ensures var all := head + BlocksJson(ToolUses(parse, calls));
            && AllText(all) == AllText(head) && AllThinking(all) == AllThinking(head)
            && AllCalls(all, toText) == AllCalls(head, toText) + AllReprinted(parse, toText, calls)
  {
    if calls == [] {
      assert head + BlocksJson(ToolUses(parse, calls)) == head;
      assert AllCalls(head, toText) + AllReprinted(parse, toText, calls) == AllCalls(head, toText);
    } else {
      var init, last := calls[..|calls| - 1], calls[|calls| - 1];
      var use := BlockJson(ToolUse(last.id, last.name, parse(last.arguments).GetOr(Obj(map[]))));
      SplitLast(calls);
      UsesRead(parse, toText, head, init);
      UsesOfSnoc(parse, toText, init, last);
      Assoc(head, BlocksJson(ToolUses(parse, init)), [use]);
      PartsOfSnoc(head + BlocksJson(ToolUses(parse, init)), use, toText);
      OneUseReads(parse, toText, last);
      Assoc(AllCalls(head, toText), AllReprinted(parse, toText, init), [Reprinted(parse, toText, last)]);
    }
  }

  function TextHead(text: string): seq<Block> {
    if text == "" then [] else [TextBlock(text)]
  }

  lemma TextHeadReads(text: string, toText: Printer)
    ensures var head := BlocksJson(TextHead(text));
            AllText(head) == text && AllThinking(head) == "" && AllCalls(head, toText) == []
  {
    var head := BlocksJson(TextHead(text));
    if text != "" {
      PartsOfSnoc([], BlockJson(TextBlock(text)), toText);
      assert head == [] + [BlockJson(TextBlock(text))];
    }
  }

  lemma EchoOfFromBlocks(head: seq<Block>, uses: seq<Block>)
    requires AllTextOrTool(head) && AllTextOrTool(uses)
    ensures AllTextOrTool(head + uses)
    ensures var c := FromBlocks(head + uses);
            && (c.Blocks? ==> AllTextOrTool(c.blocks))
            && Echo(c) == BlocksJson(head) + BlocksJson(uses)
  {
    var all := head + uses;
    assert BlocksJson(all) == BlocksJson(head) + BlocksJson(uses);
    if FromBlocks(all).Plain? {
      assert BlocksJson(all) == [BlockJson(all[0])];
    }
  }

  lemma AssistantIsEchoable(parse: Parser, m: ChatMessage)
    requires m.role == "assistant" && m.toolCalls.Some?
    ensures var c, uses := ConvertMessage(parse, m).content, ToolUses(parse, m.toolCalls.value);
            && (c.Blocks? ==> AllTextOrTool(c.blocks))
            && Echo(c) == BlocksJson(TextHead(TextContent(m.content))) + BlocksJson(uses)
  {
    EchoOfFromBlocks(TextHead(TextContent(m.content)), ToolUses(parse, m.toolCalls.value));
  }

  /** The content of an answer that repeats a converted assistant message. */
  ghost function EchoOf(parse: Parser, m: ChatMessage): seq<Value>
    requires m.role == "assistant" && m.toolCalls.Some?
  {
    AssistantIsEchoable(parse, m);
    Echo(ConvertMessage(parse, m).content)
  }

  /** An assistant message with tool calls, converted for an Anthropic upstream and read back from an
      answer that repeats it, keeps its text; its tool calls come back in order, and unchanged exactly when
      the arguments of every call are the JSON text the gateway itself would print for them. */
  lemma AssistantMessageRoundTrip(
      parse: Parser, toText: Printer, m: ChatMessage, response: Value, model: string, id: string, now: int)
    requires m.role == "assistant" && m.toolCalls.Some?
    requires response.GetArray("content") == Some(EchoOf(parse, m))
    ensures var answer, calls := ResponseOf(response, model, id, now, toText), m.toolCalls.value;
            && answer.content.GetOr("") == TextContent(m.content) && answer.reasoning.None?
            && answer.toolCalls.GetOr([]) == AllReprinted(parse, toText, calls)
            && (answer.toolCalls.GetOr([]) == calls <==>
                forall i ::
                    0 <= i < |calls| ==> toText(parse(calls[i].arguments).GetOr(Obj(map[]))) == calls[i].arguments)
  {
    var calls := m.toolCalls.value;
    AssistantIsEchoable(parse, m);
    EchoReads(parse, toText, TextContent(m.content), calls);
    AnthropicAgreement.ResponseOfBlocks(response, EchoOf(parse, m), model, id, now, toText);
    ReprintedIsSame(parse, toText, calls);
  }

  lemma NothingBefore(calls: seq<ToolCall>)
    ensures [] + calls == calls
  {
  }

  lemma EchoReads(parse: Parser, toText: Printer, text: string, calls: seq<ToolCall>)
    ensures var blocks := BlocksJson(TextHead(text)) + BlocksJson(ToolUses(parse, calls));
            && AllText(blocks) == text && AllThinking(blocks) == ""
            && AllCalls(blocks, toText) == AllReprinted(parse, toText, calls)
  {
    TextHeadReads(text, toText);
    UsesRead(parse, toText, BlocksJson(TextHead(text)), calls);
    NothingBefore(AllReprinted(parse, toText, calls));
  }

  lemma ReprintedIsSame(parse: Parser, toText: Printer, calls: seq<ToolCall>)
    ensures AllReprinted(parse, toText, calls) == calls <==>
            forall i :: 0 <= i < |calls| ==> toText(parse(calls[i].arguments).GetOr(Obj(map[]))) == calls[i].arguments
  {
    var again := AllReprinted(parse, toText, calls);
    assert forall i :: 0 <= i < |calls| ==> (again[i] == calls[i] <==> again[i].arguments == calls[i].arguments);
  }
}
